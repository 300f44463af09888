/** A run that breaks the bound on reboots: a new pin is sent while the old one is unanswered, and from
    then on the driver takes each answer for the one to its next command
    (src/driver/modem/at_protocol/control.h:343-347). */
module PinChanges {
  import opened Options
  import opened AtText
  import opened Qcfgs
  import opened Statuses
  import opened Controls
  import opened Drivers
  import opened Coherence
  import opened Settling
  import opened Modems
  import opened RebootOnce

  const NAME := "a"

  function OnlyEntry(state: EntryState): seq<Entry> { [Entry(NAME, "1", state)] }

  function Wanting(pin: string): Config { Config(pin, "", None, None) }

  /** The part of a driver's state that matters here. */
  datatype View = View(atOk: bool, echoDisabled: bool, cmd: Progress, cpin: Option<string>, state: EntryState,
                       ops: Slots, pin: string)

  predicate Looks(d: Driver, v: View) {
    && d.status.link.atOk == v.atOk && d.status.link.echoDisabled == v.echoDisabled && d.status.link.rdy
    && d.status.cmd == v.cmd && d.status.sim.cpin == v.cpin && d.entries == OnlyEntry(v.state)
    && d.control.ops == v.ops && d.control.pin == v.pin && d.control.outbound.None?
  }

  // ---- a pass ----

  /** Operations and pin once settings and pin were considered. */
  function Planned(done: Slots, v: View, wanted: string): (Slots, string) {
    var c := PinApplied(QcfgApplied(Control(done, v.pin, 0, None), OnlyEntry(v.state), v.cmd.error), wanted,
                        v.cmd.cmeError.Some?, v.cpin);
    (c.ops, c.pin)
  }

  /** Operations and pin after a pass, as far as settings and pin are concerned. */
  function Plain(v: View, wanted: string): (Slots, string) {
    var done := Completed(v.cmd.ok, v.ops);
    var ops1 := done[CHECK_READY := Conditional(done[CHECK_READY], !v.atOk)];
    var ops2 := ops1[DISABLE_ECHO := Conditional(ops1[DISABLE_ECHO], !v.echoDisabled && v.atOk)];
    if ops1[REBOOT].Op? then (ops1, v.pin)
    else if !v.echoDisabled then (ops2, v.pin)
    else Planned(ops2, v, wanted)
  }

  /** Nothing but the settings and the pin demands an operation. */
  lemma PlainPass(d: Driver, v: View, wanted: string)
    requires Looks(d, v) && v.ops[POWER_DOWN].Absent? && v.cpin != Some("READY")
    ensures var r := Prepared(d.control, d.status, d.entries, Wanting(wanted));
            (r.ops, r.pin) == Plain(v, wanted) && r.outbound.None?
  {
    hide First, QcfgApplied, PinApplied, StartsReboot, Demanded;
    var c1 := Checked(d.control, d.status);
    PreparedIs(d.control, d.status, d.entries, Wanting(wanted));
    if !Early(c1, d.status) && d.status.link.echoDisabled {
      PlainDemand(EchoChecked(c1, d.status), d.status, d.entries, wanted);
    }
  }

  lemma PlainDemand(c: Control, s: Status, es: seq<Entry>, wanted: string)
    requires c.outbound.None? && c.ops[POWER_DOWN].Absent? && !ReadyForTelephony(s.sim)
    ensures var r := Demanded(c, s, es, Wanting(wanted));
            var p := PinApplied(QcfgApplied(Control(c.ops, c.pin, 0, None), es, s.cmd.error), wanted,
                                s.cmd.cmeError.Some?, s.sim.cpin);
            r.ops == p.ops && r.pin == p.pin && r.outbound.None?
  {
    hide RebootNeeded, FirstIn, QcfgApplied, PinApplied, PowerApplied, Telephony;
    var c2 := PinApplied(QcfgApplied(c, es, s.cmd.error), wanted, s.cmd.cmeError.Some?, s.sim.cpin);
    SettingsAndPinAgree(c, s, es, wanted);
    OthersIdle(c2, s, wanted);
  }

  lemma SettingsAndPinAgree(c: Control, s: Status, es: seq<Entry>, wanted: string)
    requires c.outbound.None? && c.ops[POWER_DOWN].Absent?
    ensures var r := PinApplied(QcfgApplied(c, es, s.cmd.error), wanted, s.cmd.cmeError.Some?, s.sim.cpin);
            var p := PinApplied(QcfgApplied(Control(c.ops, c.pin, 0, None), es, s.cmd.error), wanted,
                                s.cmd.cmeError.Some?, s.sim.cpin);
            r.ops == p.ops && r.pin == p.pin && r.outbound.None? && r.ops[POWER_DOWN].Absent?
  {
    hide RebootNeeded, FirstIn;
  }

  lemma OthersIdle(c: Control, s: Status, wanted: string)
    requires c.outbound.None? && c.ops[POWER_DOWN].Absent? && !ReadyForTelephony(s.sim)
    ensures PowerApplied(c, "", s.cmd.error, s.link.poweredDown) == c && Telephony(c, s, Wanting(wanted)) == c
  {
    assert c.ops[POWER_DOWN := Absent] == c.ops;
  }

  predicate Idle(ops: Slots) { forall j: Kind :: !In(ops[j], Submitted) }

  /** Operation `k` is the next to be submitted. */
  predicate Leads(ops: Slots, k: Kind) {
    In(ops[k], Pending) && Idle(ops) && forall j: Kind :: j < k ==> ops[j].Absent?
  }

  function PassOver(d: Driver, lines: seq<string>, pin: string): Driver { Applied(d, lines, Wanting(pin)) }

  predicate Sends(d: Driver, lines: seq<string>, pin: string, command: string) {
    SentIn(d, lines, Wanting(pin)).Some? && SentIn(d, lines, Wanting(pin)).value.command == command
  }

  function Asked(command: string): Progress { Progress(Some(command), false, false, None) }

  /** The driver after it has submitted operation `k`. */
  function Launched(v: View, ops: Slots, pin: string, k: Kind): View
    requires ops[k].Op?
  {
    v.(cmd := Asked(CommandOf(k, ops[k])), ops := ops[k := ops[k].(state := Submitted)], pin := pin)
  }

  /** A driver that looks like `v` once it has heard the lines. */
  lemma PassSubmits(d: Driver, lines: seq<string>, v: View, wanted: string, k: Kind)
    requires Looks(Heard(d, lines), v) && v.ops[POWER_DOWN].Absent? && v.cpin != Some("READY")
    requires Leads(Plain(v, wanted).0, k)
    ensures var (ops, pin) := Plain(v, wanted);
            && Sends(d, lines, wanted, CommandOf(k, ops[k]))
            && Looks(PassOver(d, lines, wanted), Launched(v, ops, pin, k))
  {
    hide ApplyLines, Plain, Prepared, ReportedCall, CommandOf, First;
    PlainPass(Heard(d, lines), v, wanted);
    InFlightMeans(Plain(v, wanted).0);
    PendingMeans(Plain(v, wanted).0);
  }

  // ---- what a pass plans ----

  function Alone(k: Kind, op: Slot): Slots { NO_OPERATIONS[k := op] }

  const QUERY := New(NAME, "")
  const ASSIGNMENT := New(NAME, "1")
  const PLAIN := New("", "")
  const QUERIED := Alone(QUERY_QCFG, QUERY)
  const WANTED := Some("SIM PIN")
  const BLOCKED := Some("SIM PUK")

  function InFlightOp(op: Slot): Slot
    requires op.Op?
  {
    op.(state := Submitted)
  }

  lemma CompletedAlone(k: Kind, op: Slot, rest: Slots)
    requires In(op, Submitted) && Idle(rest)
    ensures Completed(true, rest[k := op]) == rest[k := Absent] && Completed(false, rest[k := op]) == rest[k := op]
  {
    var ops := rest[k := op];
    InFlightMeans(ops);
    assert In(ops[k], Submitted);
    assert First(ops, Submitted) == k;
    assert ops[k := Absent] == rest[k := Absent];
  }

  lemma OneEntry(state: EntryState, other: EntryState)
    ensures FirstIn(OnlyEntry(state), other) == if state == other then Some(Entry(NAME, "1", state)) else None
    ensures RebootNeeded(OnlyEntry(state)) <==> state == Modified
  {
    var es := OnlyEntry(state);
    assert es[0].state == state;
    assert forall x :: Lacks(es, x) <==> state != x;
  }

  /** Settings, with the entry in the given state. */
  function AfterSettings(ops: Slots, state: EntryState): Slots {
    if state == Modified then Alone(REBOOT, PLAIN)
    else if state == Unknown && ops[QUERY_QCFG].Absent? then ops[QUERY_QCFG := QUERY]
    else if state == Mismatch then ops[ASSIGN_QCFG := ASSIGNMENT]
    else ops
  }

  lemma QcfgStep(ops: Slots, pin: string, state: EntryState, error: bool)
    requires ops[REBOOT].Absent? && ops[ASSIGN_QCFG].Absent? && !In(ops[QUERY_QCFG], Submitted)
    ensures QcfgApplied(Control(ops, pin, 0, None), OnlyEntry(state), error)
         == Control(AfterSettings(ops, state), if state == Modified then "" else pin, 0, None)
  {
    OneEntry(state, Unknown);
    OneEntry(state, Mismatch);
    hide FirstIn, RebootNeeded, OnlyEntry;
    assert ops[QUERY_QCFG := ops[QUERY_QCFG]] == ops && ops[ASSIGN_QCFG := ops[ASSIGN_QCFG]] == ops;
    var queried := ops[QUERY_QCFG := QUERY];
    assert queried[ASSIGN_QCFG := queried[ASSIGN_QCFG]] == queried;
  }

  /** Neither the link nor a reboot demands anything, and no query or pin request is in flight. */
  predicate Free(ops: Slots) {
    && ops[CHECK_READY].Absent? && ops[DISABLE_ECHO].Absent? && ops[REBOOT].Absent? && ops[ASSIGN_QCFG].Absent?
    && ops[REQUEST_PIN_STATE].Absent? && !In(ops[QUERY_QCFG], Submitted)
  }

  /** With the link up and the state of the pin known. */
  lemma PlanUp(v: View, wanted: string, done: Slots)
    requires v.atOk && v.echoDisabled && v.cpin.Some? && v.cmd.cmeError.None? && wanted != ""
    requires done == Completed(v.cmd.ok, v.ops) && Free(done)
    ensures var ops, pin := AfterSettings(done, v.state), if v.state == Modified then "" else v.pin;
            Plain(v, wanted) == if v.cpin == WANTED && wanted != pin then (ops[SET_PIN := New(wanted, "")], wanted)
                                else (ops, pin)
  {
    hide QcfgApplied, Completed;
    assert done[CHECK_READY := Absent] == done && done[DISABLE_ECHO := Absent] == done;
    QcfgStep(done, v.pin, v.state, v.cmd.error);
    var ops := AfterSettings(done, v.state);
    assert ops[REQUEST_PIN_STATE := Absent] == ops;
  }

  // ---- what the modem's lines do ----

  const OK := "OK"
  const FAILED := "ERROR"
  const PIN_WANTED := "+CPIN: SIM PIN"
  const PIN_BLOCKED := "+CPIN: SIM PUK"

  /** The modem does not hold the wanted value. */
  function Report(): string { ResponseText(NAME, "0") }

  predicate IsOk(m: Message) {
    m.ok && m.endsCommand && !m.error && !m.rdy && !m.pinRejected && m.cpin.None? && m.cmeError.None? && m.setting.None?
  }

  predicate IsFailure(m: Message) {
    !m.ok && m.endsCommand && m.error && !m.rdy && !m.pinRejected && m.cpin.None? && m.cmeError.None? && m.setting.None?
  }

  /** The line does not end a command. */
  predicate Says(m: Message, cpin: Option<string>, setting: Option<(string, string)>) {
    && !m.ok && !m.endsCommand && !m.error && !m.rdy && !m.pinRejected && m.cmeError.None?
    && m.cpin == cpin && m.setting == setting
  }

  lemma ResultLines()
    ensures IsOk(Parse(OK)) && IsFailure(Parse(FAILED)) && ProperError(OK) && ProperError(FAILED)
  {
  }

  lemma PinLines()
    ensures Says(Parse(PIN_WANTED), WANTED, None) && Says(Parse(PIN_BLOCKED), BLOCKED, None)
    ensures ProperError(PIN_WANTED) && ProperError(PIN_BLOCKED)
  {
    hide Parse, Says;
    assert PIN_WANTED == CPIN + "SIM PIN";
    assert PIN_BLOCKED == CPIN + "SIM PUK";
    PinLine("SIM PIN");
    PinLine("SIM PUK");
  }

  lemma PinLine(value: string)
    requires forall i :: 0 <= i < |value| ==> value[i] != '\0'
    ensures Says(Parse(CPIN + value), Some(value), None) && ProperError(CPIN + value)
  {
    var line := CPIN + value;
    assert line[|CPIN|..] == value;
    CStringOfPlain(value);
    assert line[0] == '+' && line[1] == 'C' && line[2] == 'P';
    hide CString, ListedCall, ReportedSetting;
    assert !(CME_ERROR <= line) by { assert CME_ERROR[2] == 'M'; }
    assert !(CME_VALUE <= line) by { assert CME_VALUE[2] == 'M'; }
    assert !(QCFG_RESPONSE <= line) by { assert QCFG_RESPONSE[1] == 'Q'; }
  }

  lemma ReportLine()
    ensures Says(Parse(Report()), None, Some((NAME, "0"))) && ProperError(Report())
  {
    ResponsesAreUnderstood(NAME, "0");
    var line := Report();
    assert line[1] == 'Q';
    hide CString, ListedCall, ReportedSetting;
    assert !(CME_ERROR <= line) by { assert CME_ERROR[1] == 'C'; }
    assert !(CME_VALUE <= line) by { assert CME_VALUE[1] == 'C'; }
    assert !(CPIN <= line) by { assert CPIN[1] == 'C'; }
  }

  lemma HeardLines(d: Driver, a: string, b: string)
    ensures Heard(d, []) == d && Heard(d, [a]) == Hear(d, a) && Heard(d, [a, b]) == Hear(Hear(d, a), b)
  {
    hide Apply, Parse, EntriesAfter;
    assert [a, b][1..] == [b] && [a][1..] == [];
    HearAllIsApplyLines(d, []);
    HearAllIsApplyLines(d, [a]);
    HearAllIsApplyLines(d, [a, b]);
    assert HearAll(Hear(d, a), [b]) == Hear(Hear(d, a), b) by { assert [b][1..] == []; }
  }

  /** A positive result for a command that neither reboots nor assigns, or an unexpected one. */
  lemma HearOk(d: Driver, v: View)
    requires Looks(d, v) && v.cmd.cmeError.None? && !v.cmd.ok
    requires v.cmd.pending.Some? ==> v.cmd.pending.value != AT_REBOOT && AssignedName(v.cmd.pending.value).None?
    ensures Looks(Hear(d, OK), v.(atOk := v.atOk || v.cmd.pending == Some(AT_CHECK_READY),
                                  echoDisabled := v.echoDisabled || v.cmd.pending == Some(AT_DISABLE_ECHO),
                                  cmd := Progress(None, true, v.cmd.error, None)))
  {
    ResultLines();
    hide Parse, Changes, AssignedName, CallsAfter, CountsAfter;
    assert EntriesAfter(d.entries, v.cmd.pending, Parse(OK)) == d.entries;
  }

  /** A positive result that the driver takes for the one to its assignment. */
  lemma HearOkForAssignment(d: Driver, v: View)
    requires Looks(d, v) && v.cmd == Asked(AssignText(NAME, "1"))
    ensures Looks(Hear(d, OK), v.(state := Modified, cmd := Progress(None, true, false, None)))
  {
    ResultLines();
    AssignmentIsNoticed();
    hide Parse, Changes, AssignedName, CallsAfter, CountsAfter, AssignText;
    assert Find(d.entries, NAME) == 0;
    assert Acknowledged(d.entries, AssignText(NAME, "1")) == OnlyEntry(Modified);
  }

  lemma AssignmentIsNoticed()
    ensures var c := AssignText(NAME, "1");
            AssignedName(c) == Some(NAME) && c != AT_REBOOT && c != AT_CHECK_READY && c != AT_DISABLE_ECHO
  {
    OwnCommandsAreRecognised(NAME, "1");
    assert KindOf("1") == Number && TokenLen("1") == 1;
    var c := AssignText(NAME, "1");
    assert c[3] == 'Q' && AT_REBOOT[3] == 'C' && |c| > |AT_DISABLE_ECHO|;
  }

  lemma HearFailure(d: Driver, v: View)
    requires Looks(d, v) && v.cmd.cmeError.None?
    ensures Looks(Hear(d, FAILED), v.(cmd := Progress(None, v.cmd.ok, true, None)))
  {
    ResultLines();
    hide Parse, Changes, AssignedName, CallsAfter, CountsAfter;
  }

  lemma HearSaying(d: Driver, v: View, line: string, cpin: Option<string>, reported: bool)
    requires Looks(d, v) && Says(Parse(line), cpin, if reported then Some((NAME, "0")) else None)
    ensures Looks(Hear(d, line), v.(cpin := if cpin.Some? then cpin else v.cpin,
                                    state := if reported then Mismatch else v.state))
  {
    hide Parse, Changes, AssignedName, CallsAfter, CountsAfter;
    if reported {
      assert Find(d.entries, NAME) == 0;
      assert Reported(d.entries, Parse(line)) == OnlyEntry(Mismatch);
    }
  }

  // ---- the passes of the run ----

  function PinText(pin: string): string { "AT+CPIN=" + pin }

  const DONE := Progress(None, true, false, None)
  const VIEW0 := View(false, false, Progress(None, false, false, None), None, Unknown, NO_OPERATIONS, "")
  const VIEW1 := View(false, false, Asked(AT_CHECK_READY), WANTED, Unknown, Alone(CHECK_READY, InFlightOp(PLAIN)), "")
  const VIEW2 := View(true, false, Asked(AT_DISABLE_ECHO), WANTED, Unknown, Alone(DISABLE_ECHO, InFlightOp(PLAIN)), "")
  const VIEW5 := View(true, true, Asked(QueryText(NAME)), BLOCKED, Unknown, Alone(QUERY_QCFG, InFlightOp(QUERY)), "2")
  const VIEW7 := View(true, true, Asked(AssignText(NAME, "1")), BLOCKED, Mismatch,
                      Alone(ASSIGN_QCFG, InFlightOp(ASSIGNMENT)), "2")
  const VIEW8 := View(true, true, Asked(AT_REBOOT), BLOCKED, Modified, Alone(REBOOT, InFlightOp(PLAIN)), "")

  /** A pin was sent, and the query waits. */
  function PinSent(pin: string): View {
    View(true, true, Asked(PinText(pin)), WANTED, Unknown, QUERIED[SET_PIN := InFlightOp(New(pin, ""))], pin)
  }

  /** In every driver that looks like `from`, the lines lead to `to`. */
  ghost predicate Hears(from: View, lines: seq<string>, to: View) {
    forall d :: Looks(d, from) ==> Looks(Heard(d, lines), to)
  }

  /** From one state, by reading the lines with the given pin configured, to another with a command. */
  ghost predicate Leaps(from: View, lines: seq<string>, pin: string, to: View, command: string) {
    forall d :: Looks(d, from) ==> Looks(PassOver(d, lines, pin), to) && Sends(d, lines, pin, command)
  }

  lemma PassLeaps(from: View, lines: seq<string>, v: View, wanted: string, k: Kind)
    requires Hears(from, lines, v) && v.ops[POWER_DOWN].Absent? && v.cpin != Some("READY")
    requires Leads(Plain(v, wanted).0, k)
    ensures var (ops, pin) := Plain(v, wanted); Leaps(from, lines, wanted, Launched(v, ops, pin, k), CommandOf(k, ops[k]))
  {
    hide Looks, Heard, Plain, Launched, Sends, PassOver, CommandOf;
    forall d | Looks(d, from)
      ensures var (ops, pin) := Plain(v, wanted);
              Looks(PassOver(d, lines, wanted), Launched(v, ops, pin, k)) && Sends(d, lines, wanted, CommandOf(k, ops[k]))
    {
      PassSubmits(d, lines, v, wanted, k);
    }
  }

  function SaidOk(v: View): View {
    v.(atOk := v.atOk || v.cmd.pending == Some(AT_CHECK_READY),
       echoDisabled := v.echoDisabled || v.cmd.pending == Some(AT_DISABLE_ECHO),
       cmd := Progress(None, true, v.cmd.error, None))
  }

  lemma HearsOk(v: View)
    requires v.cmd.cmeError.None? && !v.cmd.ok
    requires v.cmd.pending.Some? ==> v.cmd.pending.value != AT_REBOOT && AssignedName(v.cmd.pending.value).None?
    ensures Hears(v, [OK], SaidOk(v))
  {
    hide Looks, Heard, Hear, AssignedName;
    forall d | Looks(d, v) ensures Looks(Heard(d, [OK]), SaidOk(v)) {
      HeardLines(d, OK, OK);
      HearOk(d, v);
    }
  }

  function Said(v: View, cpin: Option<string>, reported: bool): View {
    v.(cpin := if cpin.Some? then cpin else v.cpin, state := if reported then Mismatch else v.state)
  }

  lemma HearsSaying(v: View, line: string, cpin: Option<string>, reported: bool)
    requires Says(Parse(line), cpin, if reported then Some((NAME, "0")) else None)
    ensures Hears(v, [line], Said(v, cpin, reported))
  {
    hide Looks, Heard, Hear, Parse, Says;
    forall d | Looks(d, v) ensures Looks(Heard(d, [line]), Said(v, cpin, reported)) {
      HeardLines(d, line, OK);
      HearSaying(d, v, line, cpin, reported);
    }
  }

  lemma HearsBoth(v: View, a: string, between: View, b: string, to: View)
    requires Hears(v, [a], between) && Hears(between, [b], to)
    ensures Hears(v, [a, b], to)
  {
    hide Looks, Heard, Hear;
    forall d | Looks(d, v) ensures Looks(Heard(d, [a, b]), to) {
      HeardLines(d, a, b);
      HeardLines(Hear(d, a), b, b);
    }
  }

  lemma FirstPass()
    ensures Leaps(VIEW0, [PIN_WANTED], "1", VIEW1, AT_CHECK_READY)
  {
    hide Completed, First, Parse, Hears, Leaps;
    var ops := Alone(CHECK_READY, PLAIN);
    PinLines();
    HearsSaying(VIEW0, PIN_WANTED, WANTED, false);
    assert Completed(false, NO_OPERATIONS) == NO_OPERATIONS by { NothingToComplete(); }
    assert ops[DISABLE_ECHO := Absent] == ops;
    assert ops[CHECK_READY := InFlightOp(PLAIN)] == Alone(CHECK_READY, InFlightOp(PLAIN));
    PassLeaps(VIEW0, [PIN_WANTED], VIEW0.(cpin := WANTED), "1", CHECK_READY);
  }

  lemma NothingToComplete()
    ensures Completed(false, NO_OPERATIONS) == NO_OPERATIONS
  {
  }

  lemma SecondPass()
    ensures Leaps(VIEW1, [OK], "1", VIEW2, AT_DISABLE_ECHO)
  {
    hide Completed, First, Parse, Hears, Leaps, AssignedName;
    var ops := Alone(DISABLE_ECHO, PLAIN);
    PlainCommand(CHECK_READY, PLAIN);
    OnlyRebootReboots(CHECK_READY, PLAIN);
    HearsOk(VIEW1);
    CompletedAlone(CHECK_READY, InFlightOp(PLAIN), NO_OPERATIONS);
    assert NO_OPERATIONS[CHECK_READY := Absent] == NO_OPERATIONS;
    assert ops[DISABLE_ECHO := InFlightOp(PLAIN)] == Alone(DISABLE_ECHO, InFlightOp(PLAIN));
    PassLeaps(VIEW1, [OK], SaidOk(VIEW1), "1", DISABLE_ECHO);
  }

  /** A pass with the link up after an operation was completed that is followed by none but the query. */
  lemma UpPass(from: View, lines: seq<string>, v: View, rest: Slots, wanted: string, k: Kind)
    requires Hears(from, lines, v) && v.atOk && v.echoDisabled && v.cmd.cmeError.None? && wanted != ""
    requires v.cpin == WANTED || v.cpin == BLOCKED
    requires rest == Completed(v.cmd.ok, v.ops) && Free(rest) && v.ops[POWER_DOWN].Absent?
    requires var ops, pin := AfterSettings(rest, v.state), if v.state == Modified then "" else v.pin;
             Leads(if v.cpin == WANTED && wanted != pin then ops[SET_PIN := New(wanted, "")] else ops, k)
    ensures var ops, pin := AfterSettings(rest, v.state), if v.state == Modified then "" else v.pin;
            var (ops', pin') := if v.cpin == WANTED && wanted != pin then (ops[SET_PIN := New(wanted, "")], wanted)
                                else (ops, pin);
            Leaps(from, lines, wanted, Launched(v, ops', pin', k), CommandOf(k, ops'[k]))
  {
    hide Completed, Plain, AfterSettings, Free, Hears, Leaps, CommandOf;
    PlanUp(v, wanted, rest);
    PassLeaps(from, lines, v, wanted, k);
  }

  lemma ThirdPass()
    ensures Leaps(VIEW2, [OK], "1", PinSent("1"), PinText("1"))
  {
    hide Completed, Parse, Hears, Leaps, AssignedName;
    PlainCommand(DISABLE_ECHO, PLAIN);
    OnlyRebootReboots(DISABLE_ECHO, PLAIN);
    HearsOk(VIEW2);
    CompletedAlone(DISABLE_ECHO, InFlightOp(PLAIN), NO_OPERATIONS);
    assert NO_OPERATIONS[DISABLE_ECHO := Absent] == NO_OPERATIONS;
    var ops := QUERIED[SET_PIN := New("1", "")];
    assert ops[SET_PIN := InFlightOp(New("1", ""))] == QUERIED[SET_PIN := InFlightOp(New("1", ""))];
    UpPass(VIEW2, [OK], SaidOk(VIEW2), NO_OPERATIONS, "1", SET_PIN);
  }

  lemma HearsNothing(v: View)
    ensures Hears(v, [], v)
  {
    hide Looks, Heard;
    forall d | Looks(d, v) ensures Looks(Heard(d, []), v) {
      HeardLines(d, OK, OK);
    }
  }

  /** The configured pin has changed, and is sent although the first one is unanswered. */
  lemma OvertakingPass()
    ensures Leaps(PinSent("1"), [], "2", PinSent("2"), PinText("2"))
  {
    hide Completed, Hears, Leaps;
    var op1, op2 := InFlightOp(New("1", "")), InFlightOp(New("2", ""));
    HearsNothing(PinSent("1"));
    CompletedAlone(SET_PIN, op1, QUERIED);
    var ops := QUERIED[SET_PIN := op1];
    assert ops[SET_PIN := New("2", "")][SET_PIN := op2] == QUERIED[SET_PIN := op2];
    UpPass(PinSent("1"), [], PinSent("1"), ops, "2", SET_PIN);
  }

  /** The command neither reboots nor assigns, nor does it probe the link. */
  predicate Innocent(c: string) {
    c != AT_REBOOT && AssignedName(c).None? && c != AT_CHECK_READY && c != AT_DISABLE_ECHO
  }

  lemma PinCommandIsInnocent(pin: string)
    ensures Innocent(PinText(pin))
  {
    PlainCommand(SET_PIN, New(pin, ""));
    OnlyRebootReboots(SET_PIN, New(pin, ""));
    hide AssignedName;
    assert |PinText(pin)| > |AT_DISABLE_ECHO|;
  }

  lemma QueryIsInnocent()
    ensures Innocent(QueryText(NAME))
  {
    QueryMeans(NAME);
    OnlyRebootReboots(QUERY_QCFG, QUERY);
    hide AssignedName;
    assert |QueryText(NAME)| > |AT_DISABLE_ECHO|;
  }

  /** `HearsOk` with a line before the result. */
  lemma HearsSayingOk(v: View, c: string, line: string, cpin: Option<string>, reported: bool)
    requires v.cmd == Asked(c) && Innocent(c)
    requires Says(Parse(line), cpin, if reported then Some((NAME, "0")) else None)
    ensures Hears(v, [line, OK], Said(v, cpin, reported).(cmd := DONE))
  {
    hide Hears, Parse, Says, AssignedName;
    var between := Said(v, cpin, reported);
    HearsSaying(v, line, cpin, reported);
    HearsOk(between);
    HearsBoth(v, line, between, OK, between.(cmd := DONE));
  }

  /** The answer to the first pin is taken for the one to the second. */
  lemma QueryPass()
    ensures Leaps(PinSent("2"), [PIN_BLOCKED, OK], "2", VIEW5, QueryText(NAME))
  {
    hide Completed, Parse, Says, Hears, Leaps, Innocent, QueryText, PinText;
    var v, op := PinSent("2"), InFlightOp(New("2", ""));
    PinCommandIsInnocent("2");
    PinLines();
    HearsSayingOk(v, PinText("2"), PIN_BLOCKED, BLOCKED, false);
    CompletedAlone(SET_PIN, op, QUERIED);
    assert QUERIED[SET_PIN := Absent] == QUERIED;
    assert QUERIED[QUERY_QCFG := InFlightOp(QUERY)] == Alone(QUERY_QCFG, InFlightOp(QUERY));
    UpPass(v, [PIN_BLOCKED, OK], v.(cmd := DONE, cpin := BLOCKED), QUERIED, "2", QUERY_QCFG);
  }

  /** What a pass sends after an operation was completed that was alone. */
  function Following(state: EntryState): (Kind, Slot) {
    match state
    case Modified => (REBOOT, PLAIN)
    case Mismatch => (ASSIGN_QCFG, ASSIGNMENT)
    case _ => (QUERY_QCFG, QUERY)
  }

  /** With the pin blocked, only the entry decides what follows. */
  lemma AlonePass(from: View, lines: seq<string>, v: View, k: Kind, op: Slot)
    requires Hears(from, lines, v) && v.atOk && v.echoDisabled && v.cpin == BLOCKED
    requires v.cmd.ok && v.cmd.cmeError.None? && v.ops == Alone(k, op) && In(op, Submitted) && k != POWER_DOWN
    requires v.state != Confirmed
    ensures var (next, request) := Following(v.state);
            Leaps(from, lines, "2", v.(cmd := Asked(CommandOf(next, request)), ops := Alone(next, InFlightOp(request)),
                                       pin := if v.state == Modified then "" else v.pin),
                  CommandOf(next, request))
  {
    hide Completed, Hears, Leaps, CommandOf;
    var (next, request) := Following(v.state);
    CompletedAlone(k, op, NO_OPERATIONS);
    assert NO_OPERATIONS[k := Absent] == NO_OPERATIONS;
    assert Alone(next, request)[next := InFlightOp(request)] == Alone(next, InFlightOp(request));
    UpPass(from, lines, v, NO_OPERATIONS, "2", next);
  }

  /** The answer to the second pin is taken for the one to the query, which is sent again; then the
      first query is answered, and the setting assigned while the second is unanswered. */
  lemma SettingPasses()
    ensures Leaps(VIEW5, [OK], "2", VIEW5, QueryText(NAME))
    ensures Leaps(VIEW5, [Report(), OK], "2", VIEW7, AssignText(NAME, "1"))
  {
    hide Alone, Parse, Says, Hears, Leaps, AssignedName, QueryText, AssignText, Report;
    QueryIsInnocent();
    ReportLine();
    HearsOk(VIEW5);
    AlonePass(VIEW5, [OK], SaidOk(VIEW5), QUERY_QCFG, InFlightOp(QUERY));
    HearsSayingOk(VIEW5, QueryText(NAME), Report(), None, true);
    AlonePass(VIEW5, [Report(), OK], VIEW5.(state := Mismatch, cmd := DONE), QUERY_QCFG, InFlightOp(QUERY));
  }

  /** The answer to the second query is taken for the one to the assignment: the driver starts a reboot
      although the modem does not hold the wanted value. */
  lemma FirstReboot()
    ensures Leaps(VIEW7, [Report(), OK], "2", VIEW8, AT_REBOOT)
  {
    hide Alone, Parse, Says, Hears, Leaps, Looks, Heard, Hear, AssignText, Report;
    var v := VIEW7.(state := Modified, cmd := DONE);
    ReportLine();
    HearsSaying(VIEW7, Report(), None, true);
    assert Hears(VIEW7, [OK], v) by { HearsOkForAssignment(); }
    HearsBoth(VIEW7, Report(), VIEW7, OK, v);
    AlonePass(VIEW7, [Report(), OK], v, ASSIGN_QCFG, InFlightOp(ASSIGNMENT));
  }

  lemma HearsOkForAssignment()
    ensures Hears(VIEW7, [OK], VIEW7.(state := Modified, cmd := DONE))
  {
    hide Looks, Heard, Hear, AssignText;
    forall d | Looks(d, VIEW7) ensures Looks(Heard(d, [OK]), VIEW7.(state := Modified, cmd := DONE)) {
      HeardLines(d, OK, OK);
      HearOkForAssignment(d, VIEW7);
    }
  }

  /** The refusal of the assignment is taken for the one of the reboot, and the confirmation of the
      reboot comes when the driver does not expect it: it starts another. */
  lemma SecondReboot()
    ensures Leaps(VIEW8, [FAILED, OK], "2", VIEW8, AT_REBOOT)
  {
    hide Alone, Parse, Hears, Leaps, AssignedName;
    var refused := VIEW8.(cmd := Progress(None, false, true, None));
    assert Hears(VIEW8, [FAILED], refused) by { HearsFailure(); }
    HearsOk(refused);
    HearsBoth(VIEW8, FAILED, refused, OK, SaidOk(refused));
    AlonePass(VIEW8, [FAILED, OK], SaidOk(refused), REBOOT, InFlightOp(PLAIN));
  }

  lemma HearsFailure()
    ensures Hears(VIEW8, [FAILED], VIEW8.(cmd := Progress(None, false, true, None)))
  {
    hide Looks, Heard, Hear;
    forall d | Looks(d, VIEW8) ensures Looks(Heard(d, [FAILED]), VIEW8.(cmd := Progress(None, false, true, None))) {
      HeardLines(d, FAILED, OK);
      HearFailure(d, VIEW8);
    }
  }

  // ---- the run of driver and modem ----

  const SETTINGS: map<string, string> := map[NAME := "0"]

  /** The modem has asked for the pin. */
  const START := System(Initial(OnlyEntry(Unknown)), Modem(SETTINGS, [], [PIN_WANTED]))

  /** A run from the beginning in which nothing times out; `inbox` and `outbox` are left at its end. */
  predicate Reaches(moves: seq<Move>, v: View, inbox: seq<string>, outbox: seq<string>, reboots: nat) {
    && AllHonest(START, moves) && (forall i :: 0 <= i < |moves| ==> !moves[i].Expire?)
    && Looks(After(START, moves).driver, v) && After(START, moves).modem == Modem(SETTINGS, inbox, outbox)
    && Count(CommandsSent(START, moves), AT_REBOOT) == reboots
  }

  lemma {:induction false} OneMore(from: System, moves: seq<Move>, move: Move)
    requires AllHonest(from, moves) && Honest(After(from, moves), move)
    ensures AllHonest(from, moves + [move])
    ensures After(from, moves + [move]) == Next(After(from, moves), move)
    ensures var sent := SentBySystem(After(from, moves), move);
            CommandsSent(from, moves + [move])
              == CommandsSent(from, moves) + if sent.Some? then [sent.value.command] else []
    decreases |moves|
  {
    hide Next, Honest, SentBySystem;
    if moves == [] {
      assert [] + [move] == [move] && [move][1..] == [];
      assert After(Next(from, move), []) == Next(from, move);
    } else {
      assert (moves + [move])[1..] == moves[1..] + [move];
      OneMore(Next(from, moves[0]), moves[1..], move);
    }
  }

  lemma {:induction false} CountMore(commands: seq<string>, command: string, wanted: string)
    ensures Count(commands + [command], wanted) == Count(commands, wanted) + if command == wanted then 1 else 0
  {
    if commands == [] {
      assert [] + [command] == [command] && [command][1..] == [];
    } else {
      assert (commands + [command])[1..] == commands[1..] + [command];
      CountMore(commands[1..], command, wanted);
    }
  }

  /** The modem answers command `c`, without taking a value over. */
  lemma Replied(moves: seq<Move>, v: View, c: string, rest: seq<string>, outbox: seq<string>, reboots: nat,
                reply: seq<string>) returns (moves': seq<Move>)
    requires Reaches(moves, v, [c] + rest, outbox, reboots) && reply != [] && Replies(SETTINGS, c, reply)
    requires RequestIn(c).AssignOf? ==> reply[|reply| - 1] != "OK"
    ensures Reaches(moves', v, rest, outbox + reply, reboots)
  {
    hide Replies, RequestIn, Looks, Count;
    OneMore(START, moves, Answer(reply));
    moves' := moves + [Answer(reply)];
    assert ([c] + rest)[1..] == rest;
    var sent := CommandsSent(START, moves);
    assert sent + [] == sent;
  }

  /** The driver reads everything, and sends a command. */
  lemma Driven(moves: seq<Move>, v: View, inbox: seq<string>, outbox: seq<string>, reboots: nat, pin: string, to: View,
               command: string) returns (moves': seq<Move>)
    requires Reaches(moves, v, inbox, outbox, reboots) && Leaps(v, outbox, pin, to, command)
    ensures Reaches(moves', to, inbox + [command], [], reboots + if command == AT_REBOOT then 1 else 0)
  {
    hide Looks, Count, Applied, SentIn;
    var drive := Drive(|outbox|, Wanting(pin));
    OneMore(START, moves, drive);
    moves' := moves + [drive];
    assert outbox[..|outbox|] == outbox && outbox[|outbox|..] == [];
    CountMore(CommandsSent(START, moves), command, AT_REBOOT);
  }

  /** Both, one after the other. */
  lemma Exchange(moves: seq<Move>, v: View, c: string, rest: seq<string>, reboots: nat, reply: seq<string>, pin: string,
                 to: View, command: string) returns (moves': seq<Move>)
    requires Reaches(moves, v, [c] + rest, [], reboots) && reply != [] && Replies(SETTINGS, c, reply)
    requires RequestIn(c).AssignOf? ==> reply[|reply| - 1] != "OK"
    requires Leaps(v, reply, pin, to, command)
    ensures Reaches(moves', to, rest + [command], [], reboots + if command == AT_REBOOT then 1 else 0)
  {
    hide Reaches, Replies, RequestIn, Leaps;
    assert [] + reply == reply;
    moves' := Replied(moves, v, c, rest, [], reboots, reply);
    moves' := Driven(moves', v, rest, reply, reboots, pin, to, command);
  }

  lemma ResultReply(command: string, line: string)
    requires ProperError(line) && Parse(line).setting.None?
    ensures Replies(SETTINGS, command, [line])
  {
    hide Parse, ProperError, Reports;
  }

  lemma SayingReply(command: string, line: string, cpin: Option<string>, setting: Option<(string, string)>)
    requires ProperError(line) && Says(Parse(line), cpin, setting)
    requires setting.Some? ==> Reports(SETTINGS, command, setting.value)
    ensures Replies(SETTINGS, command, [line, OK])
  {
    ResultLines();
    hide Parse, ProperError, Reports;
  }

  /** The replies of the modem in this run. */
  lemma TheReplies(command: string)
    ensures Replies(SETTINGS, command, [OK]) && Replies(SETTINGS, command, [FAILED])
    ensures Replies(SETTINGS, command, [PIN_BLOCKED, OK]) && Replies(SETTINGS, QueryText(NAME), [Report(), OK])
  {
    hide Parse, ProperError, Replies, Says, RequestIn, QueryText, Report;
    ResultLines();
    PinLines();
    ReportLine();
    ResultReply(command, OK);
    ResultReply(command, FAILED);
    SayingReply(command, PIN_BLOCKED, BLOCKED, None);
    RequestsAreUnderstood(NAME, "");
    SayingReply(QueryText(NAME), Report(), None, Some((NAME, "0")));
  }

  /** None of the commands is an assignment, except one. */
  lemma OtherCommands(pin: string)
    ensures !RequestIn(AT_CHECK_READY).AssignOf? && !RequestIn(AT_DISABLE_ECHO).AssignOf?
    ensures !RequestIn(PinText(pin)).AssignOf? && !RequestIn(AT_REBOOT).AssignOf? && !RequestIn(QueryText(NAME)).AssignOf?
    ensures PinText(pin) != AT_REBOOT && QueryText(NAME) != AT_REBOOT && AssignText(NAME, "1") != AT_REBOOT
  {
    hide AssignedName, RequestIn, QueryText, AssignText;
    TooShortForSettings(AT_CHECK_READY);
    TooShortForSettings(AT_DISABLE_ECHO);
    NotSettings(PinText(pin), 3);
    NotSettings(AT_REBOOT, 3);
    RequestsAreUnderstood(NAME, "");
    QueryIsInnocent();
    PinCommandIsInnocent(pin);
    AssignmentIsNoticed();
  }

  /** Both pins are sent before the first is answered. */
  lemma UpToBothPins() returns (moves: seq<Move>)
    ensures Reaches(moves, PinSent("2"), [PinText("1")] + [PinText("2")], [], 0)
  {
    hide Reaches, Replies, RequestIn, Leaps, PinText;
    var p1, p2 := PinText("1"), PinText("2");
    OtherCommands("1");
    OtherCommands("2");
    assert AT_CHECK_READY != AT_REBOOT && AT_DISABLE_ECHO != AT_REBOOT;
    assert forall c: string :: [] + [c] == [c] + [];
    assert Reaches([], VIEW0, [], [PIN_WANTED], 0) by { NothingYet(); }
    FirstPass();
    moves := Driven([], VIEW0, [], [PIN_WANTED], 0, "1", VIEW1, AT_CHECK_READY);
    TheReplies(AT_CHECK_READY);
    SecondPass();
    moves := Exchange(moves, VIEW1, AT_CHECK_READY, [], 0, [OK], "1", VIEW2, AT_DISABLE_ECHO);
    TheReplies(AT_DISABLE_ECHO);
    ThirdPass();
    moves := Exchange(moves, VIEW2, AT_DISABLE_ECHO, [], 0, [OK], "1", PinSent("1"), p1);
    OvertakingPass();
    assert [] + [p1] == [p1];
    moves := Driven(moves, PinSent("1"), [p1], [], 0, "2", PinSent("2"), p2);
  }

  lemma NothingYet()
    ensures Reaches([], VIEW0, [], [PIN_WANTED], 0)
  {
    var es := OnlyEntry(Unknown);
    assert Invalidated(es) == es;
  }

  /** From then on every answer is taken for the one to the next command. */
  lemma UpToTheReboots(moves: seq<Move>) returns (moves': seq<Move>)
    requires Reaches(moves, PinSent("2"), [PinText("1")] + [PinText("2")], [], 0)
    ensures Reaches(moves', VIEW8, [AT_REBOOT], [], 2)
  {
    hide Reaches, Replies, RequestIn, Leaps, QueryText, AssignText, PinText, Report;
    var p1, p2, q, a := PinText("1"), PinText("2"), QueryText(NAME), AssignText(NAME, "1");
    OtherCommands("1");
    OtherCommands("2");
    TheReplies(p1);
    QueryPass();
    moves' := Exchange(moves, PinSent("2"), p1, [p2], 0, [PIN_BLOCKED, OK], "2", VIEW5, q);
    TheReplies(p2);
    SettingPasses();
    moves' := Exchange(moves', VIEW5, p2, [q], 0, [OK], "2", VIEW5, q);
    moves' := Exchange(moves', VIEW5, q, [q], 0, [Report(), OK], "2", VIEW7, a);
    FirstReboot();
    moves' := Exchange(moves', VIEW7, q, [a], 0, [Report(), OK], "2", VIEW8, AT_REBOOT);
    TheReplies(a);
    assert [] + [FAILED] == [FAILED] && [FAILED] + [OK] == [FAILED, OK] && [AT_REBOOT] + [] == [AT_REBOOT];
    moves' := Replied(moves', VIEW8, a, [AT_REBOOT], [], 1, [FAILED]);
    TheReplies(AT_REBOOT);
    moves' := Replied(moves', VIEW8, AT_REBOOT, [], [FAILED], 1, [OK]);
    SecondReboot();
    moves' := Driven(moves', VIEW8, [], [FAILED, OK], 1, "2", VIEW8, AT_REBOOT);
    assert [] + [AT_REBOOT] == [AT_REBOOT];
  }

  /** With a truthful modem and without any timeout, but with a pin that overtakes another, the driver
      may send the reboot twice, while the modem never takes the wanted value over. */
  lemma PinChangeMayRebootTwice()
    ensures WellNamed(OnlyEntry(Unknown)) && Fresh(START, OnlyEntry(Unknown))
    ensures exists moves: seq<Move> ::
              && AllHonest(START, moves) && (forall i :: 0 <= i < |moves| ==> !moves[i].Expire?)
              && Count(CommandsSent(START, moves), AT_REBOOT) == 2
              && !AllRight(After(START, moves).driver.entries, After(START, moves).modem.settings)
  {
    hide AllHonest, CommandsSent, After, Initial, Count, ProperError, Parse;
    PinLines();
    var moves := UpToBothPins();
    moves := UpToTheReboots(moves);
    var es := After(START, moves).driver.entries;
    assert es[0].value == "1" && SETTINGS[NAME] == "0";
    assert !AllRight(es, SETTINGS);
  }
}
