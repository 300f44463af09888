/** Guarantees over whole runs: when commands may be sent, how often a number is dialled, and
    what the reported call is based on. */
module Guarantees {
  import opened Options
  import opened AtText
  import opened ReadBuffers
  import opened Qcfgs
  import opened Statuses
  import opened Controls
  import opened Drivers
  import opened Coherence
  import opened Settling

  // ---- nothing but AT and ATE0 before the echo is disabled ----

  /** The echo was never disabled, and nothing else has been asked for. */
  predicate OnlyProbes(d: Driver) {
    !d.status.link.echoDisabled
    && forall k: Kind :: k != CHECK_READY && k != DISABLE_ECHO ==> d.control.ops[k].Absent?
  }

  predicate EchoRemains(d: Driver, events: seq<Event>)
    decreases |events|
  {
    events != [] ==>
      !Step(d, events[0]).status.link.echoDisabled && EchoRemains(Step(d, events[0]), events[1..])
  }

  lemma PassOnlyProbes(d: Driver, lines: seq<string>, cfg: Config)
    requires OnlyProbes(d) && !Applied(d, lines, cfg).status.link.echoDisabled
    ensures OnlyProbes(Applied(d, lines, cfg))
    ensures SentIn(d, lines, cfg).Some? ==>
              SentIn(d, lines, cfg).value.command in {AT_CHECK_READY, AT_DISABLE_ECHO}
  {
    hide ApplyLines, First, Demanded;
    var s := ApplyLines(d.status, d.entries, lines).0;
    var ops := Completed(s.cmd.ok, d.control.ops);
    assert forall k: Kind :: k != CHECK_READY && k != DISABLE_ECHO ==> ops[k].Absent?;
    var r := PreparedFor(d, lines, cfg);
    assert forall k: Kind :: k != CHECK_READY && k != DISABLE_ECHO ==> r.ops[k].Absent?;
  }

  /** As long as the echo has not been disabled, only AT and ATE0 are sent. */
  lemma {:induction false} OnlyProbesUntilEchoIsDisabled(d: Driver, events: seq<Event>)
    requires OnlyProbes(d) && EchoRemains(d, events)
    ensures forall s :: s in SentDuring(d, events) ==> s.command in {AT_CHECK_READY, AT_DISABLE_ECHO}
    decreases |events|
  {
    if events != [] {
      if events[0].Pass? {
        PassOnlyProbes(d, events[0].lines, events[0].cfg);
      }
      hide Step, SentAt;
      assert OnlyProbes(Step(d, events[0])) by { StepOnlyProbes(d, events[0]); }
      OnlyProbesUntilEchoIsDisabled(Step(d, events[0]), events[1..]);
    }
  }

  lemma StepOnlyProbes(d: Driver, e: Event)
    requires OnlyProbes(d) && !Step(d, e).status.link.echoDisabled
    ensures OnlyProbes(Step(d, e))
  {
    if e.Pass? {
      PassOnlyProbes(d, e.lines, e.cfg);
    }
  }

  lemma ReadinessCheckStays(c: Control, s: Status, es: seq<Entry>, cfg: Config)
    requires c.ops[CHECK_READY].Op?
    requires !Early(c, s) && s.link.echoDisabled ==> !StartsReboot(c.ops, es)
    ensures Configured(c, s, es, cfg).ops[CHECK_READY].Op?
  {
    hide Demanded, RebootNeeded, MaintenanceDone, TelephonyDone;
    if !Early(c, s) && s.link.echoDisabled {
      DemandSettles(EchoChecked(c, s), s, es, cfg);
    }
  }

  /** A pass without the modem's readiness sends nothing but AT, unless it starts a reboot and
      thereby drops the readiness check. */
  lemma UnreadyPassSendsOnlyAT(d: Driver, lines: seq<string>, cfg: Config)
    requires var heard := ApplyLines(d.status, d.entries, lines);
             !heard.0.link.atOk && !Reboots(d.control, heard.0, heard.1)
    ensures var sent := SentIn(d, lines, cfg);
            sent.Some? ==> sent.value == Sent(CHECK_READY, AT_CHECK_READY)
  {
    hide ApplyLines, Configured, Completed, StartsReboot;
    var heard := ApplyLines(d.status, d.entries, lines);
    var c := Checked(d.control, heard.0);
    ReadinessCheckStays(c, heard.0, heard.1, cfg);
    var r := PreparedFor(d, lines, cfg);
    InFlightMeans(r.ops);
    assert In(r.ops[CHECK_READY], Pending) || InFlight(r.ops);
  }

  // ---- a configured number is dialled once ----

  /** Every pass asks for the same accepted call, and every voice call that the modem lists
      carries its number. */
  predicate Dials(e: Event, number: string) {
    e.Pass? ==>
      && e.cfg.call.Some? && e.cfg.call.value.number == number && Accepted(e.cfg.call.value)
      && forall l :: l in e.lines && ListedCall(l).Some? ==> ListedCall(l).value.number == number
  }

  function CountOf(sent: seq<Sent>, k: Kind): nat {
    if sent == [] then 0 else (if sent[0].kind == k then 1 else 0) + CountOf(sent[1..], k)
  }

  predicate NumberIs(call: Option<Call>, number: string) { call.Some? ==> call.value.number == number }

  /** The call was dialled or is about to be. */
  function Noted(c: Control, number: string): nat {
    if c.outbound.Some? && c.outbound.value.call.number == number then 1 else 0
  }

  function ToDial(c: Control): nat { if In(c.ops[INITIATE_CALL], Pending) then 1 else 0 }

  lemma {:induction false} LinesKeepNumber(s: Status, es: seq<Entry>, lines: seq<string>, number: string)
    requires NumberIs(s.calls.current, number)
    requires forall l :: l in lines && ListedCall(l).Some? ==> ListedCall(l).value.number == number
    ensures NumberIs(ApplyLines(s, es, lines).0.calls.current, number)
    decreases |lines|
  {
    if lines != [] {
      hide ListedCall, Changes;
      var m := Parse(lines[0]);
      assert lines[0] in lines && m.call == ListedCall(lines[0]);
      LinesKeepNumber(Apply(s, es, m), EntriesAfter(es, s.cmd.pending, m), lines[1..], number);
    }
  }

  /** A pass notes the call when it decides to dial, and keeps the note. */
  lemma DemandNotesCall(c: Control, s: Status, es: seq<Entry>, cfg: Config, number: string, n: nat)
    requires cfg.call.Some? && cfg.call.value.number == number && Accepted(cfg.call.value)
    requires NumberIs(s.calls.current, number)
    requires n + ToDial(c) <= Noted(c, number)
    ensures n + ToDial(Demanded(c, s, es, cfg)) <= Noted(Demanded(c, s, es, cfg), number)
  {
    var c1 := Maintained(c, s, es, cfg);
    MaintainedKeepsCall(c, s, es, cfg);
    hide Maintained;
    var c2 := HangUpApplied(c1, cfg.call, s.calls.current);
    assert c2.outbound == c1.outbound && c2.ops[INITIATE_CALL] == c1.ops[INITIATE_CALL];
    hide HangUpApplied;
    var c3 := CallListApplied(c2, ReadyForTelephony(s.sim), s.calls.upToDate);
    assert c3.outbound == c2.outbound && c3.ops[INITIATE_CALL] == c2.ops[INITIATE_CALL];
    hide CallListApplied;
    var c4 := CallApplied(c3, cfg.call.value, ReadyForTelephony(s.sim), s.calls, s.counts.noCarrier);
    assert n + ToDial(c4) <= Noted(c4, number);
  }

  lemma MaintainedKeepsCall(c: Control, s: Status, es: seq<Entry>, cfg: Config)
    ensures var r := Maintained(c, s, es, cfg);
            r.outbound == c.outbound && ToDial(r) <= ToDial(c)
  {
    hide RebootNeeded, FirstIn;
  }

  lemma PassNotesCall(c: Control, s: Status, es: seq<Entry>, cfg: Config, number: string, n: nat)
    requires cfg.call.Some? && cfg.call.value.number == number && Accepted(cfg.call.value)
    requires NumberIs(s.calls.current, number)
    requires n + ToDial(c) <= Noted(c, number)
    ensures n + ToDial(Prepared(c, s, es, cfg)) <= Noted(Prepared(c, s, es, cfg), number)
  {
    hide Demanded, First, Accepted;
    var c1 := Checked(c, s);
    assert c1.outbound == c.outbound && ToDial(c1) <= ToDial(c);
    hide Completed;
    var c2 := EchoChecked(c1, s);
    assert c2.outbound == c1.outbound && ToDial(c2) == ToDial(c1);
    if !Early(c1, s) && s.link.echoDisabled {
      DemandNotesCall(c2, s, es, cfg, number, n);
    }
  }

  /** Launching moves a call from being about to be dialled to having been dialled. */
  lemma LaunchDials(c: Control, number: string)
    ensures var sent := SentBy(c);
            (if sent.Some? && sent.value.kind == INITIATE_CALL then 1 else 0) + ToDial(Launch(c)) <= ToDial(c)
    ensures Launch(c).outbound == c.outbound
  {
    hide CommandOf;
  }

  lemma StepDialsOnce(d: Driver, e: Event, number: string, n: nat)
    requires Dials(e, number) && NumberIs(d.status.calls.current, number)
    requires n + ToDial(d.control) <= Noted(d.control, number)
    ensures NumberIs(Step(d, e).status.calls.current, number)
    ensures var sent := SentAt(d, e);
            var m := n + if sent.Some? && sent.value.kind == INITIATE_CALL then 1 else 0;
            m + ToDial(Step(d, e).control) <= Noted(Step(d, e).control, number)
  {
    if e.Pass? {
      hide ApplyLines, Prepared, Launch, SentBy, Accepted, ListedCall, ToDial;
      LinesKeepNumber(d.status, d.entries, e.lines, number);
      var heard := ApplyLines(d.status, d.entries, e.lines);
      PassNotesCall(d.control, heard.0, heard.1, e.cfg, number, n);
      LaunchDials(PreparedFor(d, e.lines, e.cfg), number);
    }
  }

  /** While the configuration keeps one accepted call, its number is dialled at most once,
      across timeouts, disconnects and reboots. */
  lemma {:induction false} DialsAtMostOnce(d: Driver, events: seq<Event>, number: string, n: nat)
    requires forall e :: e in events ==> Dials(e, number)
    requires NumberIs(d.status.calls.current, number)
    requires n + ToDial(d.control) <= Noted(d.control, number)
    ensures n + CountOf(SentDuring(d, events), INITIATE_CALL) <= 1
    decreases |events|
  {
    if events != [] {
      hide Step, SentAt, Dials, NumberIs, ToDial;
      StepDialsOnce(d, events[0], number, n);
      var sent := SentAt(d, events[0]);
      var m := n + if sent.Some? && sent.value.kind == INITIATE_CALL then 1 else 0;
      DialsAtMostOnce(Step(d, events[0]), events[1..], number, m);
      var later := SentDuring(Step(d, events[0]), events[1..]);
      if sent.Some? {
        assert ([sent.value] + later)[1..] == later;
      } else {
        assert [] + later == later;
      }
    }
  }

  // ---- the reported call ----

  /** The call was listed after the most recent NO CARRIER. */
  predicate ListedSinceHangup(history: seq<string>, call: Call) {
    exists i :: 0 <= i < |history| && ListedCall(history[i]) == Some(call)
      && forall j :: i < j < |history| ==> history[j] != "NO CARRIER"
  }

  predicate Backed(history: seq<string>, call: Option<Call>) {
    call.Some? ==> ListedSinceHangup(history, call.value)
  }

  function HangUps(lines: seq<string>): nat {
    if lines == [] then 0 else (if lines[0] == "NO CARRIER" then 1 else 0) + HangUps(lines[1..])
  }

  lemma ListingIsRemembered(history: seq<string>, line: string, call: Call)
    requires line != "NO CARRIER"
    requires ListedCall(line) == Some(call) || ListedSinceHangup(history, call)
    ensures ListedSinceHangup(history + [line], call)
  {
    hide ListedCall;
    var h := history + [line];
    if ListedCall(line) == Some(call) {
      assert h[|history|] == line;
    } else {
      var i :| 0 <= i < |history| && ListedCall(history[i]) == Some(call)
               && forall j :: i < j < |history| ==> history[j] != "NO CARRIER";
      assert h[i] == history[i];
      assert forall j :: i < j < |h| ==> h[j] == if j < |history| then history[j] else line;
    }
  }

  lemma LineBacksCalls(s: Status, es: seq<Entry>, history: seq<string>, line: string)
    requires Backed(history, s.calls.current)
    ensures Backed(history + [line], Apply(s, es, Parse(line)).calls.current)
  {
    hide ListedCall, Changes, ListedSinceHangup, ValueOf, ReportedSetting;
    var s' := Apply(s, es, Parse(line));
    if s'.calls.current.Some? {
      ListingIsRemembered(history, line, s'.calls.current.value);
    }
  }

  lemma {:induction false} LinesBackCurrentCall(s: Status, es: seq<Entry>, history: seq<string>, lines: seq<string>)
    requires Backed(history, s.calls.current)
    ensures Backed(history + lines, ApplyLines(s, es, lines).0.calls.current)
    decreases |lines|
  {
    if lines == [] {
      assert history + lines == history;
    } else {
      hide Apply, Parse, Backed;
      var m := Parse(lines[0]);
      LineBacksCalls(s, es, history, lines[0]);
      LinesBackCurrentCall(Apply(s, es, m), EntriesAfter(es, s.cmd.pending, m), history + [lines[0]], lines[1..]);
      assert history + lines == (history + [lines[0]]) + lines[1..];
    }
  }

  lemma {:induction false} LinesWithoutHangupKeepListing(history: seq<string>, lines: seq<string>, call: Call)
    requires ListedSinceHangup(history, call) && HangUps(lines) == 0
    ensures ListedSinceHangup(history + lines, call)
    decreases |lines|
  {
    if lines == [] {
      assert history + lines == history;
    } else {
      hide ListedCall, ListedSinceHangup;
      ListingIsRemembered(history, lines[0], call);
      LinesWithoutHangupKeepListing(history + [lines[0]], lines[1..], call);
      assert history + lines == (history + [lines[0]]) + lines[1..];
    }
  }

  const WRAP: nat := 0x1_0000_0000

  /** A 32-bit counter after `k` increments. */
  function Advanced(n: nat, k: nat): nat { (n + k) % WRAP }

  lemma IncThenAdvance(n: nat, k: nat)
    ensures Advanced(Inc(n), k) == Advanced(n, 1 + k) && Inc(n) < WRAP
  {
    var q := (n + 1) / WRAP;
    assert n + 1 == q * WRAP + Inc(n);
  }

  lemma WrappedSumDiffers(n: nat, k: nat)
    requires n < WRAP && k < WRAP
    ensures Advanced(n, k) == n <==> k == 0
    ensures Advanced(n, k) < WRAP
  {
  }

  lemma LineCountsHangup(s: Status, es: seq<Entry>, line: string)
    ensures Apply(s, es, Parse(line)).counts.noCarrier
         == if line == "NO CARRIER" then Inc(s.counts.noCarrier) else s.counts.noCarrier
  {
    hide Changes, ValueOf, ReportedSetting, ListedCall;
  }

  lemma {:induction false} LinesCountHangups(s: Status, es: seq<Entry>, lines: seq<string>)
    requires s.counts.noCarrier < WRAP
    ensures ApplyLines(s, es, lines).0.counts.noCarrier == Advanced(s.counts.noCarrier, HangUps(lines))
    decreases |lines|
  {
    hide Apply, Parse, Inc, Advanced, EntriesAfter;
    if lines != [] {
      var m := Parse(lines[0]);
      LineCountsHangup(s, es, lines[0]);
      WrappedSumDiffers(s.counts.noCarrier, 0);
      IncThenAdvance(s.counts.noCarrier, HangUps(lines[1..]));
      LinesCountHangups(Apply(s, es, m), EntriesAfter(es, s.cmd.pending, m), lines[1..]);
    } else {
      WrappedSumDiffers(s.counts.noCarrier, 0);
    }
  }

  function History(events: seq<Event>): seq<string> {
    if events == [] then []
    else (if events[0].Pass? then events[0].lines else []) + History(events[1..])
  }

  predicate CallsBacked(d: Driver, history: seq<string>) {
    Backed(history, d.status.calls.current) && Backed(history, d.reported)
    && d.status.counts.noCarrier < WRAP
  }

  lemma PassBacksReported(d: Driver, lines: seq<string>, history: seq<string>)
    requires CallsBacked(d, history) && |lines| < WRAP
    ensures var after := ApplyLines(d.status, d.entries, lines).0;
            && Backed(history + lines, after.calls.current)
            && after.counts.noCarrier < WRAP
            && (after.counts.noCarrier == d.status.counts.noCarrier ==> Backed(history + lines, d.reported))
  {
    hide ListedSinceHangup, ApplyLines, Advanced;
    LinesBackCurrentCall(d.status, d.entries, history, lines);
    LinesCountHangups(d.status, d.entries, lines);
    HangUpsBounded(lines);
    WrappedSumDiffers(d.status.counts.noCarrier, HangUps(lines));
    if HangUps(lines) == 0 && d.reported.Some? {
      LinesWithoutHangupKeepListing(history, lines, d.reported.value);
    }
  }

  lemma StepBacksCalls(d: Driver, e: Event, history: seq<string>)
    requires CallsBacked(d, history) && (e.Pass? ==> |e.lines| < WRAP)
    ensures CallsBacked(Step(d, e), history + (if e.Pass? then e.lines else []))
  {
    hide ListedSinceHangup, ApplyLines, Prepared, Launch, SentBy, ListedCall, Configured;
    if e.Pass? {
      PassBacksReported(d, e.lines, history);
    } else {
      assert history + [] == history;
    }
  }

  lemma {:induction false} HangUpsBounded(lines: seq<string>)
    ensures HangUps(lines) <= |lines|
  {
    if lines != [] { HangUpsBounded(lines[1..]); }
  }

  /** The reported call and the current call were always listed after the last NO CARRIER. A pass
      must read fewer lines than the 32-bit NO CARRIER counter can tell apart. */
  lemma {:induction false} ReportedCallIsBacked(d: Driver, history: seq<string>, events: seq<Event>)
    requires CallsBacked(d, history)
    requires forall e :: e in events && e.Pass? ==> |e.lines| < WRAP
    ensures CallsBacked(Run(d, events), history + History(events))
    decreases |events|
  {
    if events == [] {
      assert history + [] == history;
    } else {
      hide Step, CallsBacked;
      var now := if events[0].Pass? then events[0].lines else [];
      StepBacksCalls(d, events[0], history);
      ReportedCallIsBacked(Step(d, events[0]), history + now, events[1..]);
      assert history + (now + History(events[1..])) == (history + now) + History(events[1..]);
    }
  }
}
