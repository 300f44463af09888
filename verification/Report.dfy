/** Which call the driver reports: the one listed last, for as long as the list is valid, and then the
    same one until the next NO CARRIER (src/driver/modem/at_protocol/driver.h:105-137). */
module Reports {
  import opened Options
  import opened AtText
  import opened Qcfgs
  import opened Statuses
  import opened Controls
  import opened Drivers
  import opened Coherence
  import opened Guarantees

  // ---- what has happened ----

  /** A line was heard while a command was pending or not, a command was submitted, or the call list
      is to be polled. */
  datatype Happening = Heard(line: string, pending: Option<string>) | Asked(command: string) | Polled

  function PendingAfter(pending: Option<string>, line: string): Option<string> {
    if line == "OK" || line == "ERROR" || "+CME ERROR:" <= line then None else pending
  }

  function Heards(pending: Option<string>, lines: seq<string>): seq<Happening>
    decreases |lines|
  {
    if lines == [] then []
    else [Heard(lines[0], pending)] + Heards(PendingAfter(pending, lines[0]), lines[1..])
  }

  function HappeningsOf(d: Driver, e: Event): seq<Happening> {
    match e
    case Pass(lines, cfg) =>
      var sent := SentAt(d, e);
      Heards(d.status.cmd.pending, lines) + if sent.Some? then [Asked(sent.value.command)] else []
    case Timeout => []
    case PollCalls => [Polled]
  }

  function HappeningsDuring(d: Driver, events: seq<Event>): seq<Happening>
    decreases |events|
  {
    if events == [] then [] else HappeningsOf(d, events[0]) + HappeningsDuring(Step(d, events[0]), events[1..])
  }

  // ---- the call list, looking back ----

  /** A new or an ended call, and the confirmation of a command that starts, accepts or ends a call or
      reboots the modem, make every call listed before obsolete. */
  predicate Obsoletes(line: string, pending: Option<string>) {
    || line == "RING" || line == "NO CARRIER"
    || (line == "OK" && pending.Some?
        && (pending.value == "ATH" || pending.value == "ATA" || "ATD" <= pending.value || pending.value == "AT+CFUN=1,1"))
  }

  /** The call listed last, unless it was made obsolete or the list was asked for since. */
  function ListedLast(past: seq<Happening>): Option<Call> {
    if past == [] then None
    else
      var earlier := past[..|past| - 1];
      match past[|past| - 1]
      case Asked(command) => if command == "AT+CLCC" then None else ListedLast(earlier)
      case Polled => ListedLast(earlier)
      case Heard(line, pending) =>
        if Obsoletes(line, pending) then None
        else if ListedCall(line).Some? then ListedCall(line)
        else ListedLast(earlier)
  }

  /** The list was completed, by an answer to the request for it or a line when a call is known, and
      since then neither made obsolete nor asked for nor to be polled. */
  predicate ListIsValid(past: seq<Happening>) {
    past != [] &&
      var earlier := past[..|past| - 1];
      match past[|past| - 1]
      case Asked(command) => command != "AT+CLCC" && ListIsValid(earlier)
      case Polled => false
      case Heard(line, pending) =>
        !Obsoletes(line, pending)
        && ((line == "OK" && pending == Some("AT+CLCC")) || ListedLast(past).Some? || ListIsValid(earlier))
  }

  predicate Remembers(s: Status, past: seq<Happening>) {
    s.calls == Calls(ListIsValid(past), ListedLast(past))
  }

  lemma LineIsRemembered(s: Status, es: seq<Entry>, past: seq<Happening>, line: string)
    requires Remembers(s, past)
    ensures var s' := Apply(s, es, Parse(line));
            Remembers(s', past + [Heard(line, s.cmd.pending)]) && s'.cmd.pending == PendingAfter(s.cmd.pending, line)
  {
    hide ListedCall, Changes, ReportedSetting, ValueOf, CountsAfter, SimAfter, LinkAfter;
    var more := past + [Heard(line, s.cmd.pending)];
    assert more[..|more| - 1] == past;
    CommandsDiffer();
  }

  lemma {:induction false} LinesAreRemembered(s: Status, es: seq<Entry>, past: seq<Happening>, lines: seq<string>)
    requires Remembers(s, past)
    ensures Remembers(ApplyLines(s, es, lines).0, past + Heards(s.cmd.pending, lines))
    decreases |lines|
  {
    hide Remembers, Apply, Parse, EntriesAfter;
    if lines == [] {
      assert past + [] == past;
    } else {
      var m := Parse(lines[0]);
      var now := [Heard(lines[0], s.cmd.pending)];
      LineIsRemembered(s, es, past, lines[0]);
      LinesAreRemembered(Apply(s, es, m), EntriesAfter(es, s.cmd.pending, m), past + now, lines[1..]);
      var later := Heards(PendingAfter(s.cmd.pending, lines[0]), lines[1..]);
      assert past + (now + later) == (past + now) + later;
    }
  }

  lemma SubmissionIsRemembered(s: Status, past: seq<Happening>, command: string)
    requires Remembers(s, past)
    ensures Remembers(AfterSubmit(s, command), past + [Asked(command)])
  {
    var more := past + [Asked(command)];
    assert more[..|more| - 1] == past;
  }

  lemma StepIsRemembered(d: Driver, past: seq<Happening>, e: Event)
    requires Remembers(d.status, past)
    ensures Remembers(Step(d, e).status, past + HappeningsOf(d, e))
  {
    hide Remembers, ApplyLines, AfterSubmit, SentIn, PreparedFor, Launch, ReportedCall;
    match e
    case Pass(lines, cfg) =>
      var heard := ApplyLines(d.status, d.entries, lines).0;
      var now := Heards(d.status.cmd.pending, lines);
      LinesAreRemembered(d.status, d.entries, past, lines);
      var sent := SentIn(d, lines, cfg);
      if sent.Some? {
        SubmissionIsRemembered(heard, past + now, sent.value.command);
        assert past + (now + [Asked(sent.value.command)]) == (past + now) + [Asked(sent.value.command)];
      } else {
        assert now + [] == now;
      }
    case Timeout =>
      assert past + [] == past;
      TimeoutIsNothing(d, past);
    case PollCalls => PollIsRemembered(d, past);
  }

  lemma TimeoutIsNothing(d: Driver, past: seq<Happening>)
    requires Remembers(d.status, past)
    ensures Remembers(Cancelled(d).status, past)
  {
  }

  lemma PollIsRemembered(d: Driver, past: seq<Happening>)
    requires Remembers(d.status, past)
    ensures Remembers(CallListInvalidated(d).status, past + [Polled])
  {
    var more := past + [Polled];
    assert more[..|more| - 1] == past;
  }

  /** In every run, the current call is the one listed last, and the list counts as valid exactly if it is. */
  lemma {:induction false} CallIsTheOneListedLast(d: Driver, past: seq<Happening>, events: seq<Event>)
    requires Remembers(d.status, past)
    ensures Remembers(Run(d, events).status, past + HappeningsDuring(d, events))
    decreases |events|
  {
    hide Remembers, Step, HappeningsOf;
    if events == [] {
      assert past + [] == past;
    } else {
      var now, d' := HappeningsOf(d, events[0]), Step(d, events[0]);
      StepIsRemembered(d, past, events[0]);
      CallIsTheOneListedLast(d', past + now, events[1..]);
      assert past + (now + HappeningsDuring(d', events[1..])) == (past + now) + HappeningsDuring(d', events[1..]);
    }
  }

  // ---- the report ----

  predicate HungUp(lines: seq<string>) { exists i :: 0 <= i < |lines| && lines[i] == "NO CARRIER" }

  lemma {:induction false} HangUpsMeans(lines: seq<string>)
    ensures HangUps(lines) > 0 <==> HungUp(lines)
  {
    if lines != [] {
      HangUpsMeans(lines[1..]);
      if i :| 0 <= i < |lines[1..]| && lines[1..][i] == "NO CARRIER" { assert lines[i + 1] == "NO CARRIER"; }
      if i :| 0 <= i < |lines| && lines[i] == "NO CARRIER" {
        if i > 0 { assert lines[1..][i - 1] == "NO CARRIER"; }
      }
    }
  }

  lemma HangUpsAreNoticed(s: Status, es: seq<Entry>, lines: seq<string>)
    requires s.counts.noCarrier < WRAP && |lines| < WRAP
    ensures ApplyLines(s, es, lines).0.counts.noCarrier != s.counts.noCarrier <==> HungUp(lines)
    ensures ApplyLines(s, es, lines).0.counts.noCarrier < WRAP
  {
    hide ApplyLines, HungUp, Advanced;
    LinesCountHangups(s, es, lines);
    HangUpsBounded(lines);
    HangUpsMeans(lines);
    WrappedSumDiffers(s.counts.noCarrier, HangUps(lines));
  }

  /** After a pass, the report is the call listed last if the list is valid. If not, the previous report
      stays exactly as long as no NO CARRIER was heard in the pass. */
  lemma ReportIsRight(d: Driver, past: seq<Happening>, lines: seq<string>, cfg: Config)
    requires Remembers(d.status, past) && d.status.counts.noCarrier < WRAP && |lines| < WRAP
    ensures var past' := past + HappeningsOf(d, Pass(lines, cfg));
            Step(d, Pass(lines, cfg)).reported
              == if ListIsValid(past') then ListedLast(past') else if HungUp(lines) then None else d.reported
  {
    hide ListIsValid, ListedLast, HungUp, ApplyLines, PreparedFor, HappeningsOf, Launch, SentIn;
    StepIsRemembered(d, past, Pass(lines, cfg));
    HangUpsAreNoticed(d.status, d.entries, lines);
    SendingKeepsCounts(ApplyLines(d.status, d.entries, lines).0, SentIn(d, lines, cfg));
  }

  lemma SendingKeepsCounts(s: Status, sent: Option<Sent>)
    ensures AfterSend(s, sent).counts.noCarrier == s.counts.noCarrier
  {
  }

  /** Nothing but a pass changes the report. */
  lemma OnlyPassesReport(d: Driver, e: Event)
    requires !e.Pass?
    ensures Step(d, e).reported == d.reported
  {
  }

  predicate Fair(events: seq<Event>) { forall e :: e in events && e.Pass? ==> |e.lines| < WRAP }

  lemma {:induction false} CountStaysSmall(d: Driver, events: seq<Event>)
    requires d.status.counts.noCarrier < WRAP && Fair(events)
    ensures Run(d, events).status.counts.noCarrier < WRAP
    decreases |events|
  {
    hide ApplyLines, PreparedFor, Launch, SentIn, ReportedCall;
    if events != [] {
      if events[0].Pass? {
        HangUpsAreNoticed(d.status, d.entries, events[0].lines);
        SendingKeepsCounts(ApplyLines(d.status, d.entries, events[0].lines).0, SentIn(d, events[0].lines, events[0].cfg));
      }
      CountStaysSmall(Step(d, events[0]), events[1..]);
    }
  }

  /** From the beginning: after every run and one more pass, the report is what was listed last. */
  lemma ReportAfterAnyRun(entries: seq<Entry>, events: seq<Event>, lines: seq<string>, cfg: Config)
    requires Fair(events) && |lines| < WRAP
    ensures var d := Run(Initial(entries), events);
            var past := HappeningsDuring(Initial(entries), events) + HappeningsOf(d, Pass(lines, cfg));
            Step(d, Pass(lines, cfg)).reported
              == if ListIsValid(past) then ListedLast(past) else if HungUp(lines) then None else d.reported
  {
    hide Step, HappeningsOf, ListIsValid, ListedLast, HungUp, Run, Fair;
    var d0 := Initial(entries);
    NothingRemembered(entries);
    CallIsTheOneListedLast(d0, [], events);
    CountStaysSmall(d0, events);
    assert [] + HappeningsDuring(d0, events) == HappeningsDuring(d0, events);
    ReportIsRight(Run(d0, events), HappeningsDuring(d0, events), lines, cfg);
  }

  lemma NothingRemembered(entries: seq<Entry>)
    ensures Remembers(Initial(entries).status, [])
  {
  }
}
