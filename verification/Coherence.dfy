/** Runs of the driver against any modem, and what holds in every reachable state. */
module Coherence {
  import opened Options
  import opened AtText
  import opened Qcfgs
  import opened Statuses
  import opened Controls
  import opened Drivers

  // ---- runs ----

  /** What can happen to a driver: the modem's next lines together with a pass over some
      configuration, a timeout, or a request to poll the call list. */
  datatype Event = Pass(lines: seq<string>, cfg: Config) | Timeout | PollCalls

  function Step(d: Driver, e: Event): Driver {
    match e
    case Pass(lines, cfg) => Applied(d, lines, cfg)
    case Timeout => Cancelled(d)
    case PollCalls => CallListInvalidated(d)
  }

  function SentAt(d: Driver, e: Event): Option<Sent> {
    if e.Pass? then SentIn(d, e.lines, e.cfg) else None
  }

  function Run(d: Driver, events: seq<Event>): Driver
    decreases |events|
  {
    if events == [] then d else Run(Step(d, events[0]), events[1..])
  }

  lemma {:induction false} RunAppend(d: Driver, events: seq<Event>, e: Event)
    ensures Run(d, events + [e]) == Step(Run(d, events), e)
    decreases |events|
  {
    hide Step;
    if events == [] {
      assert [] + [e] == [e] && [e][1..] == [];
      assert Run(Step(d, e), []) == Step(d, e);
    } else {
      assert (events + [e])[1..] == events[1..] + [e];
      RunAppend(Step(d, events[0]), events[1..], e);
    }
  }

  /** Everything sent to the modem during a run. */
  function SentDuring(d: Driver, events: seq<Event>): seq<Sent>
    decreases |events|
  {
    if events == [] then []
    else
      var now := SentAt(d, events[0]);
      (if now.Some? then [now.value] else []) + SentDuring(Step(d, events[0]), events[1..])
  }

  // ---- a pass submits nothing by itself ----

  /** Whatever is in flight in `b` was in flight in `a` already. */
  predicate Keeps(a: Slots, b: Slots) {
    forall k: Kind :: In(b[k], Submitted) ==> a[k] == b[k]
  }

  lemma QcfgKeeps(c: Control, es: seq<Entry>, error: bool)
    ensures Keeps(c.ops, QcfgApplied(c, es, error).ops)
  {
  }

  lemma PinKeeps(c: Control, pin: string, cmeError: bool, cpin: Option<string>)
    ensures Keeps(c.ops, PinApplied(c, pin, cmeError, cpin).ops)
  {
  }

  lemma PowerAndHangUpKeep(c: Control, s: Status, cfg: Config)
    ensures Keeps(c.ops, PowerApplied(c, cfg.power, s.cmd.error, s.link.poweredDown).ops)
    ensures Keeps(c.ops, HangUpApplied(c, cfg.call, s.calls.current).ops)
  {
  }

  lemma CallListKeeps(c: Control, ready: bool, upToDate: bool)
    ensures Keeps(c.ops, CallListApplied(c, ready, upToDate).ops)
  {
  }

  lemma CallKeeps(c: Control, node: CallNode, ready: bool, calls: Calls, noCarrier: nat)
    ensures Keeps(c.ops, CallApplied(c, node, ready, calls, noCarrier).ops)
  {
  }

  lemma MaintainedKeeps(c: Control, s: Status, es: seq<Entry>, cfg: Config)
    ensures Keeps(c.ops, Maintained(c, s, es, cfg).ops)
  {
    hide QcfgApplied, PinApplied, PowerApplied;
    var c1 := QcfgApplied(c, es, s.cmd.error);
    QcfgKeeps(c, es, s.cmd.error);
    var c2 := PinApplied(c1, cfg.pin, s.cmd.cmeError.Some?, s.sim.cpin);
    PinKeeps(c1, cfg.pin, s.cmd.cmeError.Some?, s.sim.cpin);
    PowerAndHangUpKeep(c2, s, cfg);
  }

  lemma TelephonyKeeps(c: Control, s: Status, cfg: Config)
    ensures Keeps(c.ops, Telephony(c, s, cfg).ops)
  {
    hide HangUpApplied, CallListApplied, CallApplied, RingApplied;
    var c1 := HangUpApplied(c, cfg.call, s.calls.current);
    PowerAndHangUpKeep(c, s, cfg);
    var c2 := CallListApplied(c1, ReadyForTelephony(s.sim), s.calls.upToDate);
    CallListKeeps(c1, ReadyForTelephony(s.sim), s.calls.upToDate);
    var c3 := c2;
    if cfg.call.Some? {
      c3 := CallApplied(c2, cfg.call.value, ReadyForTelephony(s.sim), s.calls, s.counts.noCarrier);
      CallKeeps(c2, cfg.call.value, ReadyForTelephony(s.sim), s.calls, s.counts.noCarrier);
    }
    if cfg.ring.Some? {
      RingKeeps(c3, cfg.ring.value, s.counts.ring);
    }
  }

  lemma DemandedKeeps(c: Control, s: Status, es: seq<Entry>, cfg: Config)
    ensures Keeps(c.ops, Demanded(c, s, es, cfg).ops)
  {
    hide Maintained, Telephony;
    MaintainedKeeps(c, s, es, cfg);
    TelephonyKeeps(Maintained(c, s, es, cfg), s, cfg);
  }

  lemma RingKeeps(c: Control, command: string, ringCount: nat)
    ensures Keeps(c.ops, RingApplied(c, command, ringCount).ops)
  {
  }

  lemma ConfiguredKeeps(c: Control, s: Status, es: seq<Entry>, cfg: Config)
    ensures Keeps(c.ops, Configured(c, s, es, cfg).ops)
  {
    hide Demanded;
    var echo := c.(ops := c.ops[DISABLE_ECHO :=
                  Conditional(c.ops[DISABLE_ECHO], !s.link.echoDisabled && s.link.atOk)]);
    DemandedKeeps(echo, s, es, cfg);
  }

  lemma PreparedKeeps(c: Control, s: Status, es: seq<Entry>, cfg: Config)
    ensures Keeps(c.ops, Prepared(c, s, es, cfg).ops)
  {
    hide Configured, First;
    var ops := Completed(s.cmd.ok, c.ops);
    var c1 := c.(ops := ops[CHECK_READY := Conditional(ops[CHECK_READY], !s.link.atOk)]);
    assert Keeps(c.ops, c1.ops);
    ConfiguredKeeps(c1, s, es, cfg);
  }

  // ---- coherence of operations and status ----

  predicate Clean(p: Progress) { !p.ok && !p.error && p.cmeError.None? }

  predicate AtMostOneSubmitted(ops: Slots) {
    forall i: Kind, j: Kind :: In(ops[i], Submitted) && In(ops[j], Submitted) ==> i == j
  }

  /** An operation in flight is the pending command, or its result has arrived. */
  predicate Accounted(k: Kind, op: Slot, p: Progress) {
    In(op, Submitted) ==> if p.pending.Some? then p.pending.value == CommandOf(k, op) else !Clean(p)
  }

  /** At most one operation is in flight, it is the pending command unless a result arrived, and
      no result is noted while a command is pending. */
  predicate Coherent(d: Driver) {
    && AtMostOneSubmitted(d.control.ops)
    && (d.status.cmd.pending.Some? ==> Clean(d.status.cmd))
    && forall k: Kind :: Accounted(k, d.control.ops[k], d.status.cmd)
  }

  /** A CME error in the documented form, with a blank in front of the error number. */
  predicate ProperError(line: string) { CME_ERROR <= line ==> CME_VALUE <= line }

  lemma ProperErrorIsNoted(line: string)
    requires ProperError(line)
    ensures Parse(line).endsCommand ==> Parse(line).ok || Parse(line).error || Parse(line).cmeError.Some?
  {
  }

  lemma ErrorValueEndsCommand(line: string)
    ensures Parse(line).cmeError.Some? || Parse(line).ok || Parse(line).error ==> Parse(line).endsCommand
  {
    if CME_VALUE <= line {
      assert CME_ERROR <= CME_VALUE;
      assert forall i :: 0 <= i < |CME_ERROR| ==> CME_ERROR[i] == CME_VALUE[i] == line[i];
    }
  }

  /** While the lines are properly formed, a command stays pending without a result, or it ends
      with a result. */
  lemma {:induction false} LinesAccount(s: Status, es: seq<Entry>, lines: seq<string>)
    requires s.cmd.pending.Some? ==> Clean(s.cmd)
    requires forall l :: l in lines ==> ProperError(l)
    ensures var p := ApplyLines(s, es, lines).0.cmd;
            && (p.pending.Some? ==> Clean(p) && p.pending == s.cmd.pending)
            && (p.pending.None? && s.cmd.pending.Some? ==> !Clean(p))
            && (s.cmd.pending.None? && !Clean(s.cmd) ==> !Clean(p))
    decreases |lines|
  {
    if lines != [] {
      var m := Parse(lines[0]);
      ProperErrorIsNoted(lines[0]);
      ErrorValueEndsCommand(lines[0]);
      LinesAccount(Apply(s, es, m), EntriesAfter(es, s.cmd.pending, m), lines[1..]);
    }
  }

  lemma LaunchCoherent(c: Control, s: Status, es: seq<Entry>, reported: Option<Call>)
    requires Coherent(Driver(s, es, c, reported))
    ensures Coherent(Driver(AfterSend(s, SentBy(c)), es, Launch(c), reported))
  {
  }

  predicate ProperEvent(e: Event) {
    e.Pass? ==> forall l :: l in e.lines ==> ProperError(l)
  }

  lemma StepCoherent(d: Driver, e: Event)
    requires Coherent(d) && ProperEvent(e)
    ensures Coherent(Step(d, e))
  {
    if e.Pass? {
      LinesAccount(d.status, d.entries, e.lines);
      var heard := ApplyLines(d.status, d.entries, e.lines);
      var prepared := PreparedFor(d, e.lines, e.cfg);
      PreparedKeeps(d.control, heard.0, heard.1, e.cfg);
      forall k: Kind ensures Accounted(k, prepared.ops[k], heard.0.cmd) {
        assert Accounted(k, d.control.ops[k], d.status.cmd);
      }
      LaunchCoherent(prepared, heard.0, heard.1, Step(d, e).reported);
    } else if e.Timeout? {
      forall k: Kind ensures Accounted(k, Step(d, e).control.ops[k], Step(d, e).status.cmd) {
        assert Accounted(k, d.control.ops[k], d.status.cmd);
      }
    } else {
      forall k: Kind ensures Accounted(k, Step(d, e).control.ops[k], Step(d, e).status.cmd) {
        assert Accounted(k, d.control.ops[k], d.status.cmd);
      }
    }
  }

  /** Every run against any modem whose CME errors have the documented form keeps the operations
      and the status coherent. */
  lemma {:induction false} RunsStayCoherent(d: Driver, events: seq<Event>)
    requires Coherent(d) && forall e :: e in events ==> ProperEvent(e)
    ensures Coherent(Run(d, events))
    decreases |events|
  {
    if events != [] {
      StepCoherent(d, events[0]);
      RunsStayCoherent(Step(d, events[0]), events[1..]);
    }
  }

  lemma InitialIsCoherent(entries: seq<Entry>)
    ensures Coherent(Initial(entries)) && NeverOverlaps(Initial(entries))
  {
  }

  // ---- what holds whatever the lines look like ----

  /** An operation in flight is the pending command, if there is one. */
  predicate AccountedUnlessEnded(k: Kind, op: Slot, p: Progress) {
    In(op, Submitted) && p.pending.Some? ==> p.pending.value == CommandOf(k, op)
  }

  /** At most one operation is in flight, no result is noted while a command is pending, and the two
      are the same command. */
  predicate NeverOverlaps(d: Driver) {
    && AtMostOneSubmitted(d.control.ops)
    && (d.status.cmd.pending.Some? ==> Clean(d.status.cmd))
    && forall k: Kind :: AccountedUnlessEnded(k, d.control.ops[k], d.status.cmd)
  }

  /** A command stays pending without a result, or nothing is pending any more. */
  lemma {:induction false} LinesKeepPending(s: Status, es: seq<Entry>, lines: seq<string>)
    requires s.cmd.pending.Some? ==> Clean(s.cmd)
    ensures var p := ApplyLines(s, es, lines).0.cmd;
            p.pending.Some? ==> Clean(p) && p.pending == s.cmd.pending
    decreases |lines|
  {
    if lines != [] {
      var m := Parse(lines[0]);
      ErrorValueEndsCommand(lines[0]);
      hide Parse, EntriesAfter, Changes;
      LinesKeepPending(Apply(s, es, m), EntriesAfter(es, s.cmd.pending, m), lines[1..]);
    }
  }

  lemma LaunchNeverOverlaps(c: Control, s: Status, es: seq<Entry>, reported: Option<Call>)
    requires NeverOverlaps(Driver(s, es, c, reported))
    ensures NeverOverlaps(Driver(AfterSend(s, SentBy(c)), es, Launch(c), reported))
  {
  }

  lemma StepNeverOverlaps(d: Driver, e: Event)
    requires NeverOverlaps(d)
    ensures NeverOverlaps(Step(d, e))
  {
    if e.Pass? {
      LinesKeepPending(d.status, d.entries, e.lines);
      var heard := ApplyLines(d.status, d.entries, e.lines);
      var prepared := PreparedFor(d, e.lines, e.cfg);
      PreparedKeeps(d.control, heard.0, heard.1, e.cfg);
      forall k: Kind ensures AccountedUnlessEnded(k, prepared.ops[k], heard.0.cmd) {
        assert AccountedUnlessEnded(k, d.control.ops[k], d.status.cmd);
      }
      LaunchNeverOverlaps(prepared, heard.0, heard.1, Step(d, e).reported);
    } else {
      forall k: Kind ensures AccountedUnlessEnded(k, Step(d, e).control.ops[k], Step(d, e).status.cmd) {
        assert AccountedUnlessEnded(k, d.control.ops[k], d.status.cmd);
      }
    }
  }

  /** In every run against any modem, whatever its lines look like: at most one operation is in
      flight, no result is noted while a command is pending, and the two are the same command. */
  lemma {:induction false} RunsNeverOverlap(d: Driver, events: seq<Event>)
    requires NeverOverlaps(d)
    ensures NeverOverlaps(Run(d, events))
    decreases |events|
  {
    hide NeverOverlaps, Step;
    if events != [] {
      StepNeverOverlaps(d, events[0]);
      RunsNeverOverlap(Step(d, events[0]), events[1..]);
    }
  }

  /** Coherence adds that an operation in flight without a pending command has a result. */
  lemma CoherenceAddsResults(d: Driver)
    ensures Coherent(d)
       <==> (NeverOverlaps(d) && forall k: Kind :: ResultNoted(d.control.ops[k], d.status.cmd))
  {
    forall k: Kind
      ensures Accounted(k, d.control.ops[k], d.status.cmd)
         <==> (AccountedUnlessEnded(k, d.control.ops[k], d.status.cmd) && ResultNoted(d.control.ops[k], d.status.cmd))
    {
    }
  }

  predicate ResultNoted(op: Slot, p: Progress) { In(op, Submitted) && p.pending.None? ==> !Clean(p) }

  /** Coherence is lost two passes after the start, if the modem responds to the readiness check with
      a malformed error. */
  lemma MalformedErrorIsReachable(entries: seq<Entry>, cfg: Config)
    ensures !Coherent(Run(Initial(entries), [Pass([], cfg), Pass(["+CME ERROR:5"], cfg)]))
  {
    hide Step, ApplyLines, Run;
    var e, f := Pass([], cfg), Pass(["+CME ERROR:5"], cfg);
    var d := Step(Initial(entries), e);
    FirstPassChecksReadiness(entries, cfg);
    MalformedErrorIsNotNoted(d.status, d.entries);
    ReadinessCheckIsKept(d, f);
    RunOfTwo(Initial(entries), e, f);
    assert !Accounted(CHECK_READY, Step(d, f).control.ops[CHECK_READY], Step(d, f).status.cmd);
  }

  lemma RunOfTwo(d: Driver, e: Event, f: Event)
    ensures Run(d, [e, f]) == Step(Step(d, e), f)
  {
    hide Step;
    assert [e, f][1..] == [f] && [f][1..] == [];
    assert Run(Step(d, e), [f]) == Run(Step(Step(d, e), f), []);
  }

  lemma FirstPassChecksReadiness(entries: seq<Entry>, cfg: Config)
    ensures var d := Step(Initial(entries), Pass([], cfg));
            && d.control.ops == NO_OPERATIONS[CHECK_READY := Op(Submitted, "", "")]
            && d.status.cmd == Progress(Some(AT_CHECK_READY), false, false, None)
            && !d.status.link.atOk && !d.status.link.echoDisabled
  {
    hide Demanded, Invalidated, Prepared, First;
    var d := Initial(entries);
    assert ApplyLines(d.status, d.entries, []) == (d.status, d.entries);
    assert AT_CHECK_READY != AT_REQUEST_CALL_LIST;
    FirstPassPrepares(d.entries, cfg);
  }

  lemma FirstPassPrepares(es: seq<Entry>, cfg: Config)
    ensures var r := Prepared(IDLE, INITIAL, es, cfg);
            r.ops == NO_OPERATIONS[CHECK_READY := New("", "")] && Chosen(r.ops) == Some(CHECK_READY)
  {
    hide Demanded, First, Chosen;
    OnlyReadinessIsChosen();
  }

  lemma OnlyReadinessIsChosen()
    ensures Chosen(NO_OPERATIONS[CHECK_READY := New("", "")]) == Some(CHECK_READY)
  {
    hide First;
    var ops := NO_OPERATIONS[CHECK_READY := New("", "")];
    assert In(ops[0], Pending);
    forall k: Kind ensures !In(ops[k], Submitted) {
      assert k != 0 ==> ops[k] == NO_OPERATIONS[k] == Absent;
    }
  }

  lemma MalformedErrorIsNotNoted(s: Status, es: seq<Entry>)
    requires s.cmd == Progress(Some(AT_CHECK_READY), false, false, None)
    ensures var heard := ApplyLines(s, es, ["+CME ERROR:5"]);
            && heard.0.cmd == Progress(None, false, false, None)
            && heard.0.link.atOk == s.link.atOk && heard.0.link.echoDisabled == s.link.echoDisabled
  {
    var line := "+CME ERROR:5";
    var lines := [line];
    assert lines[1..] == [];
    assert line[11] == '5' && CME_VALUE[11] == ' ';
    assert CME_ERROR <= line && !(CME_VALUE <= line);
    var m := Parse(line);
    assert m.endsCommand && !m.ok && !m.error && m.cmeError.None?;
    hide Parse, EntriesAfter, Changes;
    assert ApplyLines(s, es, [line]) == (Apply(s, es, m), EntriesAfter(es, s.cmd.pending, m));
  }

  lemma ReadinessCheckIsKept(d: Driver, f: Event)
    requires f.Pass? && d.control.ops == NO_OPERATIONS[CHECK_READY := Op(Submitted, "", "")]
    requires var heard := ApplyLines(d.status, d.entries, f.lines);
             && heard.0.cmd == Progress(None, false, false, None)
             && !heard.0.link.atOk && !heard.0.link.echoDisabled
    ensures In(Step(d, f).control.ops[CHECK_READY], Submitted)
    ensures Step(d, f).status.cmd == Progress(None, false, false, None)
  {
    hide ApplyLines, Demanded;
    var heard := ApplyLines(d.status, d.entries, f.lines);
    var r := PreparedFor(d, f.lines, f.cfg);
    assert In(r.ops[CHECK_READY], Submitted);
    assert First(r.ops, Submitted) == 0;
  }

  /** Without a pending command, a timeout retires no operation. */
  lemma TimeoutNeedsPendingCommand(d: Driver)
    ensures Step(d, Timeout).control.ops
         == if d.status.cmd.pending.Some? then AfterCancel(d.control.ops) else d.control.ops
  {
  }

  /** Without the documented form, exactly the malformed error that hits an operation in flight
      breaks coherence: the command ends, and no result is noted that would retire it. */
  lemma MalformedErrorBreaksCoherence(d: Driver, line: string)
    requires Coherent(d)
    ensures var heard := ApplyLines(d.status, d.entries, [line]);
            Coherent(d.(status := heard.0, entries := heard.1))
            <==> (ProperError(line) || d.status.cmd.pending.None? || !InFlight(d.control.ops))
  {
    var m := Parse(line);
    var s' := Apply(d.status, d.entries, m);
    var d' := d.(status := s', entries := EntriesAfter(d.entries, d.status.cmd.pending, m));
    assert [line][1..] == [];
    assert ApplyLines(d.status, d.entries, [line]) == (d'.status, d'.entries);
    ErrorValueEndsCommand(line);
    forall k: Kind ensures Accounted(k, d.control.ops[k], d.status.cmd) {}
    if ProperError(line) {
      ProperErrorIsNoted(line);
      forall k: Kind ensures Accounted(k, d'.control.ops[k], d'.status.cmd) {
        assert Accounted(k, d.control.ops[k], d.status.cmd);
      }
    } else if InFlight(d.control.ops) && d.status.cmd.pending.Some? {
      var k: Kind := First(d.control.ops, Submitted);
      assert !Accounted(k, d'.control.ops[k], d'.status.cmd);
    } else {
      forall k: Kind ensures Accounted(k, d'.control.ops[k], d'.status.cmd) {
        assert Accounted(k, d.control.ops[k], d.status.cmd);
      }
    }
  }
}
