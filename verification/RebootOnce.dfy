/** Against a modem that answers in order and truthfully, the driver reboots the modem at most
    once (src/driver/modem/at_protocol/control.h:471-495, qcfg.h:114-138). */
module RebootOnce {
  import opened Options
  import opened AtText
  import opened Qcfgs
  import opened Statuses
  import opened Controls
  import opened Drivers
  import opened Coherence
  import opened Settling
  import opened Modems

  // ---- entries ----

  predicate WellNamed(es: seq<Entry>) {
    && (forall i, j :: 0 <= i < j < |es| ==> es[i].name != es[j].name)
    && (forall i :: 0 <= i < |es| ==> PlainText(es[i].name))
  }

  predicate Owns(es: seq<Entry>, name: string, value: string) {
    exists i :: 0 <= i < |es| && es[i].name == name && es[i].value == value
  }

  predicate HasName(es: seq<Entry>, name: string) {
    exists i :: 0 <= i < |es| && es[i].name == name
  }

  /** The modem holds the wanted value. */
  predicate Right(e: Entry, settings: map<string, string>) {
    e.name in settings && settings[e.name] == e.value
  }

  predicate AllRight(es: seq<Entry>, settings: map<string, string>) {
    forall i :: 0 <= i < |es| ==> Right(es[i], settings)
  }

  /** Entries differ in their states only. */
  predicate SameSettings(es: seq<Entry>, fs: seq<Entry>) {
    |es| == |fs| && forall i :: 0 <= i < |es| ==> es[i].name == fs[i].name && es[i].value == fs[i].value
  }

  /** What a message does to one entry. */
  function StateHeard(e: Entry, pending: Option<string>, m: Message): EntryState {
    if Confirms(pending, m, AT_REBOOT) then Unknown
    else if m.ok && pending.Some? && AssignedName(pending.value) == Some(e.name) then Modified
    else StateReported(e, m)
  }

  function StateReported(e: Entry, m: Message): EntryState {
    if m.setting.Some? && m.setting.value.0 == e.name
    then (if m.setting.value.1 == e.value then Confirmed else Mismatch)
    else e.state
  }

  lemma WithStateAt(es: seq<Entry>, name: string, state: EntryState)
    requires WellNamed(es)
    ensures SameSettings(es, WithState(es, name, state))
    ensures forall i :: 0 <= i < |es| ==>
              WithState(es, name, state)[i].state == if es[i].name == name then state else es[i].state
  {
  }

  lemma ReportedAt(es: seq<Entry>, m: Message)
    requires WellNamed(es)
    ensures SameSettings(es, Reported(es, m)) && WellNamed(Reported(es, m))
    ensures forall i :: 0 <= i < |es| ==> Reported(es, m)[i].state == StateReported(es[i], m)
  {
    if m.setting.Some? {
      var i := Find(es, m.setting.value.0);
      WithStateAt(es, m.setting.value.0, Confirmed);
      WithStateAt(es, m.setting.value.0, Mismatch);
    }
  }

  lemma EntriesHeard(es: seq<Entry>, pending: Option<string>, m: Message)
    requires WellNamed(es)
    ensures var fs := EntriesAfter(es, pending, m);
            && SameSettings(es, fs) && WellNamed(fs)
            && forall i :: 0 <= i < |es| ==> fs[i].state == StateHeard(es[i], pending, m)
  {
    hide AssignedName, PlainText, Find, Reported, WithState;
    ReportedAt(es, m);
    var rs := Reported(es, m);
    if m.ok && pending.Some? {
      var name := AssignedName(pending.value);
      if name.Some? {
        WithStateAt(rs, name.value, Modified);
      }
    }
  }

  // ---- what the driver's commands mean ----

  /** The command may assign settings, but only as some entry wants it, and both sides agree on
      what it assigns. */
  predicate Understood(command: string, es: seq<Entry>) {
    && (RequestIn(command).AssignOf? ==> Owns(es, RequestIn(command).name, RequestIn(command).value))
    && (AssignedName(command).Some? ==>
          RequestIn(command).AssignOf? && RequestIn(command).name == AssignedName(command).value)
  }

  /** The command neither assigns a setting nor reboots the modem. */
  predicate Harmless(command: string) {
    AssignedName(command).None? && !RequestIn(command).AssignOf? && command != AT_REBOOT
  }

  /** The arguments of the settings operations come from the entries, and a ring command is inert. */
  predicate FromEntries(ops: Slots, es: seq<Entry>) {
    && (ops[QUERY_QCFG].Op? ==> HasName(es, ops[QUERY_QCFG].arg))
    && (ops[ASSIGN_QCFG].Op? ==> Owns(es, ops[ASSIGN_QCFG].arg, ops[ASSIGN_QCFG].value))
    && (ops[RING].Op? ==> Inert(ops[RING].arg))
  }

  lemma NotSettings(command: string, i: nat)
    requires i < |command| && i < |AT_QCFG_PREFIX| && command[i] != AT_QCFG_PREFIX[i]
    ensures AssignedName(command).None? && RequestIn(command) == Other
  {
    assert (AT_QCFG_PREFIX + "\"")[i] == AT_QCFG_PREFIX[i];
  }

  lemma TooShortForSettings(command: string)
    requires |command| < |AT_QCFG_PREFIX|
    ensures AssignedName(command).None? && RequestIn(command) == Other
  {
  }

  /** The commands other than those for settings and rings. */
  lemma PlainCommand(k: Kind, op: Slot)
    requires op.Op? && k != QUERY_QCFG && k != ASSIGN_QCFG && k != RING
    ensures AssignedName(CommandOf(k, op)).None? && RequestIn(CommandOf(k, op)) == Other
  {
    var c := CommandOf(k, op);
    hide AssignedName, RequestIn;
    if k == INITIATE_CALL {
      NotSettings(c, 2);
    } else if k == POWER_DOWN || k == REQUEST_PIN_COUNT {
      NotSettings(c, 4);
    } else if k == SET_PIN || k == REQUEST_PIN_STATE || k == REBOOT {
      NotSettings(c, 3);
    } else {
      TooShortForSettings(c);
    }
  }

  lemma OnlyRebootReboots(k: Kind, op: Slot)
    requires op.Op? && k != RING
    ensures CommandOf(k, op) == AT_REBOOT <==> k == REBOOT
  {
    var c := CommandOf(k, op);
    if k == SET_PIN || k == QUERY_QCFG || k == ASSIGN_QCFG {
      assert c[4] != AT_REBOOT[4];
    } else if k == INITIATE_CALL {
      assert c[2] != AT_REBOOT[2];
    } else if k != REBOOT {
      assert |c| != |AT_REBOOT|;
    }
  }

  lemma QueryMeans(name: string)
    requires PlainText(name)
    ensures RequestIn(QueryText(name)) == QueryOf(name) && AssignedName(QueryText(name)).None?
  {
    hide AssignedName, RequestIn, PlainText, QueryText;
    RequestsAreUnderstood(name, "");
    OwnCommandsAreRecognised(name, "");
  }

  lemma AssignMeans(name: string, value: string)
    requires PlainText(name)
    ensures var c := AssignText(name, value);
            && RequestIn(c) == AssignOf(name, value)
            && (AssignedName(c).Some? ==> AssignedName(c).value == name)
  {
    hide AssignedName, RequestIn, PlainText, AssignText, CommaElement;
    RequestsAreUnderstood(name, value);
    OwnCommandsAreRecognised(name, value);
  }

  lemma CommandMeans(k: Kind, ops: Slots, es: seq<Entry>)
    requires ops[k].Op? && WellNamed(es) && FromEntries(ops, es)
    ensures var c := CommandOf(k, ops[k]);
            && Understood(c, es)
            && (c == AT_REBOOT <==> k == REBOOT)
            && (RequestIn(c).QueryOf? ==> k == QUERY_QCFG)
            && (RequestIn(c).AssignOf? ==> k == ASSIGN_QCFG)
            && (k != ASSIGN_QCFG && k != REBOOT ==> Harmless(c))
  {
    hide AssignedName, RequestIn, PlainText, QueryText, AssignText;
    if k != RING { OnlyRebootReboots(k, ops[k]); }
    if k == RING {
      hide Owns, HasName;
    } else if k == QUERY_QCFG {
      assert CommandOf(k, ops[k]) == QueryText(ops[k].arg);
      hide CommandOf, Owns;
      QueryMeans(ops[k].arg);
    } else if k == ASSIGN_QCFG {
      assert CommandOf(k, ops[k]) == AssignText(ops[k].arg, ops[k].value);
      hide CommandOf;
      AssignMeans(ops[k].arg, ops[k].value);
    } else {
      hide CommandOf, Owns;
      PlainCommand(k, ops[k]);
    }
  }

  // ---- before the reboot: one command at a time, and every note about a setting is true ----

  predicate Truthful(es: seq<Entry>, settings: map<string, string>) {
    forall i :: 0 <= i < |es| && (es[i].state == Confirmed || es[i].state == Modified) ==> Right(es[i], settings)
  }

  /** The settings operations fit the states of the entries. */
  predicate OpsFit(ops: Slots, es: seq<Entry>) {
    && FromEntries(ops, es)
    && (!Lacks(es, Modified) ==> Lacks(es, Unknown))
    && (ops[QUERY_QCFG].Op? ==> Lacks(es, Modified))
    && (In(ops[ASSIGN_QCFG], Submitted) ==> ops[QUERY_QCFG].Absent? && Lacks(es, Unknown))
    && (ops[REBOOT].Op? ==>
          ops[QUERY_QCFG].Absent? && ops[ASSIGN_QCFG].Absent? && Lacks(es, Unknown) && Lacks(es, Mismatch)
          && !Lacks(es, Modified))
  }

  predicate OnlyProbing(ops: Slots) {
    forall k: Kind :: k != CHECK_READY && k != DISABLE_ECHO ==> ops[k].Absent?
  }

  /** The settings come first: nothing else of lower priority is in flight. */
  predicate SettingsFirst(c: Control, link: Link, ok: bool, es: seq<Entry>) {
    && link.rdy
    && (forall k: Kind :: k >= HANG_UP ==> !In(c.ops[k], Submitted))
    && (!link.echoDisabled ==> Lacks(es, Modified) && OnlyProbing(c.ops))
    && (c.ops[DISABLE_ECHO].Op? ==> c.ops[REBOOT].Absent?)
    && (In(c.ops[REBOOT], Submitted) ==> !ok)
  }

  /** The operation that the pending command belongs to will survive the next pass. */
  predicate InProgress(ops: Slots, link: Link, es: seq<Entry>) {
    && InFlight(ops)
    && (In(ops[CHECK_READY], Submitted) ==> !link.atOk)
    && (In(ops[DISABLE_ECHO], Submitted) ==> !link.echoDisabled && link.atOk)
    && (RebootNeeded(es) ==> ops[REBOOT].Op?)
  }

  /** The modem's lines are calm or the answer to the command. */
  predicate Answering(command: string, lines: seq<string>, settings: map<string, string>) {
    && (forall i :: 0 <= i < |lines| ==> ProperError(lines[i]))
    && (forall i :: 0 <= i < |lines| && Ends(lines[i]) ==>
          Parse(lines[i]).setting.None? && forall j :: i < j < |lines| ==> Calm(lines[j]))
    && (forall i :: 0 <= i < |lines| && Parse(lines[i]).setting.Some? ==>
          Reports(settings, command, Parse(lines[i]).setting.value))
    && (forall i :: 0 <= i < |lines| && lines[i] == "OK" && RequestIn(command).AssignOf? ==>
          Took(settings, RequestIn(command)))
  }

  /** The assignment has taken effect. */
  predicate Took(settings: map<string, string>, r: Request)
    requires r.AssignOf?
  {
    r.name in settings && settings[r.name] == r.value
  }

  /** Without a pending command the modem is idle; a pending command is on its way, or its answer. */
  predicate Exchange(pending: Option<string>, m: Modem) {
    if pending.None? then m.inbox == [] && AllCalm(m.outbox)
    else (m.inbox == [pending.value] && AllCalm(m.outbox))
         || (m.inbox == [] && Answering(pending.value, m.outbox, m.settings))
  }

  predicate Aligned(d: Driver, m: Modem) {
    && WellNamed(d.entries)
    && Coherent(d)
    && Truthful(d.entries, m.settings)
    && OpsFit(d.control.ops, d.entries)
    && SettingsFirst(d.control, d.status.link, d.status.cmd.ok, d.entries)
    && (d.status.cmd.pending.Some? ==> InProgress(d.control.ops, d.status.link, d.entries))
    && Exchange(d.status.cmd.pending, m)
  }

  // ---- once everything is as wanted ----

  predicate TrueReports(lines: seq<string>, es: seq<Entry>) {
    forall i, k :: 0 <= i < |lines| && 0 <= k < |es| && Parse(lines[i]).setting.Some?
                   && Parse(lines[i]).setting.value.0 == es[k].name ==>
                     Parse(lines[i]).setting.value.1 == es[k].value
  }

  predicate AllHarmless(commands: seq<string>) {
    forall i :: 0 <= i < |commands| ==> Harmless(commands[i])
  }

  /** The modem holds every wanted value, and nothing under way can change that or restart it. */
  predicate Reconciled(d: Driver, m: Modem) {
    && WellNamed(d.entries)
    && AllRight(d.entries, m.settings)
    && Lacks(d.entries, Mismatch) && Lacks(d.entries, Modified)
    && AtMostOneSubmitted(d.control.ops)
    && FromEntries(d.control.ops, d.entries)
    && d.control.ops[ASSIGN_QCFG].Absent?
    && (d.control.ops[REBOOT].Op? ==> In(d.control.ops[REBOOT], Submitted) && d.status.cmd.ok)
    && (d.status.cmd.pending.Some? ==> Harmless(d.status.cmd.pending.value))
    && AllHarmless(m.inbox)
    && TrueReports(m.outbox, d.entries)
  }

  // ---- the driver hears a line ----

  function Hear(d: Driver, line: string): Driver {
    d.(status := Apply(d.status, d.entries, Parse(line)),
       entries := EntriesAfter(d.entries, d.status.cmd.pending, Parse(line)))
  }

  function LineTaken(m: Modem): Modem
    requires m.outbox != []
  {
    m.(outbox := m.outbox[1..])
  }

  lemma HearCoherent(d: Driver, line: string)
    requires Coherent(d) && ProperError(line)
    ensures Coherent(Hear(d, line))
  {
    MalformedErrorBreaksCoherence(d, line);
    assert [line][1..] == [];
    assert ApplyLines(d.status, d.entries, [line]) == (Hear(d, line).status, Hear(d, line).entries);
  }

  /** A calm line leaves the command, the settings and the slots alone. */
  lemma CalmLineKeepsAligned(d: Driver, m: Modem)
    requires Aligned(d, m) && m.outbox != [] && Calm(m.outbox[0])
    ensures Aligned(Hear(d, m.outbox[0]), LineTaken(m))
  {
    hide Exchange, Hear, WellNamed, Truthful, OpsFit, InFlight, Coherent, Ends, ProperError, Parse;
    HearCoherent(d, m.outbox[0]);
    CalmLineSaysNothing(d, m.outbox[0]);
    RestOfExchange(d.status.cmd.pending, m);
  }

  lemma CalmLineSaysNothing(d: Driver, line: string)
    requires Calm(line)
    ensures var d' := Hear(d, line);
            && d'.entries == d.entries && d'.control == d.control && d'.status.cmd == d.status.cmd
            && d'.status.link.atOk == d.status.link.atOk
            && d'.status.link.echoDisabled == d.status.link.echoDisabled
            && (d.status.link.rdy ==> d'.status.link.rdy)
  {
    ErrorValueEndsCommand(line);
    assert !Parse(line).ok && !Parse(line).error && Parse(line).cmeError.None?;
    hide Parse, Changes;
  }

  /** The operation that the pending command belongs to. */
  lemma PendingOperation(d: Driver, m: Modem) returns (k: Kind)
    requires Aligned(d, m) && d.status.cmd.pending.Some?
    ensures In(d.control.ops[k], Submitted) && k < HANG_UP
    ensures forall j: Kind :: In(d.control.ops[j], Submitted) ==> j == k
    ensures var c := d.status.cmd.pending.value;
            && Understood(c, d.entries)
            && (c == AT_REBOOT <==> k == REBOOT)
            && (RequestIn(c).QueryOf? ==> k == QUERY_QCFG)
            && (RequestIn(c).AssignOf? ==> k == ASSIGN_QCFG)
  {
    k := First(d.control.ops, Submitted);
    assert Accounted(k, d.control.ops[k], d.status.cmd);
    hide Understood, RequestIn, AssignedName, WellNamed, Exchange, Truthful, Lacks;
    CommandMeans(k, d.control.ops, d.entries);
  }

  lemma SameOwners(es: seq<Entry>, fs: seq<Entry>, ops: Slots)
    requires SameSettings(es, fs) && FromEntries(ops, es)
    ensures FromEntries(ops, fs)
  {
    if ops[QUERY_QCFG].Op? {
      var i :| 0 <= i < |es| && es[i].name == ops[QUERY_QCFG].arg;
      assert fs[i].name == ops[QUERY_QCFG].arg;
    }
    if ops[ASSIGN_QCFG].Op? {
      var i :| 0 <= i < |es| && es[i].name == ops[ASSIGN_QCFG].arg && es[i].value == ops[ASSIGN_QCFG].value;
      assert fs[i].name == ops[ASSIGN_QCFG].arg && fs[i].value == ops[ASSIGN_QCFG].value;
    }
  }

  lemma RestAnswers(command: string, lines: seq<string>, settings: map<string, string>)
    requires lines != [] && Answering(command, lines, settings)
    ensures Answering(command, lines[1..], settings)
    ensures Ends(lines[0]) ==> AllCalm(lines[1..])
  {
    hide Calm, Ends, Reports, Took, ProperError;
    var rest := lines[1..];
    assert forall i :: 0 <= i < |rest| ==> rest[i] == lines[i + 1];
  }

  /** What a report in the answer to the pending command does to the entries. */
  lemma ReportedEntries(d: Driver, m: Modem)
    requires Aligned(d, m) && d.status.cmd.pending.Some? && m.inbox == []
    requires m.outbox != [] && !Ends(m.outbox[0])
    ensures var es, fs := d.entries, Hear(d, m.outbox[0]).entries;
            && SameSettings(es, fs) && WellNamed(fs) && Truthful(fs, m.settings)
            && (fs != es ==> In(d.control.ops[QUERY_QCFG], Submitted))
            && (Lacks(es, Unknown) ==> Lacks(fs, Unknown))
            && (Lacks(es, Modified) ==> Lacks(fs, Modified))
  {
    hide Parse, Hear, WellNamed, Coherent, OpsFit, SettingsFirst, InProgress, Exchange;
    var line := m.outbox[0];
    var es, fs := d.entries, Hear(d, line).entries;
    UnfinishedEntries(d, line);
    if Parse(line).setting.Some? {
      ReportIsTrue(d, m);
    } else {
      assert forall i :: 0 <= i < |es| ==> fs[i] == es[i];
      assert fs == es;
    }
  }

  /** What a line that does not end the command does to each entry. */
  lemma UnfinishedEntries(d: Driver, line: string)
    requires WellNamed(d.entries) && !Ends(line)
    ensures var es, fs := d.entries, Hear(d, line).entries;
            && SameSettings(es, fs) && WellNamed(fs)
            && (forall i :: 0 <= i < |es| ==> fs[i].state == StateReported(es[i], Parse(line)))
  {
    hide AssignedName, WellNamed, EntriesAfter, ValueOf, ListedCall, ReportedSetting;
    ErrorValueEndsCommand(line);
    EntriesHeard(d.entries, d.status.cmd.pending, Parse(line));
  }

  /** A reported setting is what the modem holds, and was asked for. */
  lemma ReportIsTrue(d: Driver, m: Modem)
    requires Aligned(d, m) && d.status.cmd.pending.Some? && m.inbox == [] && m.outbox != []
    requires Parse(m.outbox[0]).setting.Some?
    ensures var setting := Parse(m.outbox[0]).setting.value;
            setting.0 in m.settings && m.settings[setting.0] == setting.1
    ensures In(d.control.ops[QUERY_QCFG], Submitted) && Lacks(d.entries, Modified)
  {
    hide Parse, WellNamed, Coherent, SettingsFirst, InProgress, RequestIn, FromEntries, Understood;
    var k := PendingOperation(d, m);
    assert Reports(m.settings, d.status.cmd.pending.value, Parse(m.outbox[0]).setting.value);
  }

  /** A line of the answer that does not end the command. */
  lemma ReportKeepsAligned(d: Driver, m: Modem)
    requires Aligned(d, m) && d.status.cmd.pending.Some? && m.inbox == []
    requires m.outbox != [] && !Ends(m.outbox[0])
    ensures Aligned(Hear(d, m.outbox[0]), LineTaken(m))
  {
    hide Exchange, Hear, WellNamed, Truthful, FromEntries, Coherent, InFlight, Ends, ProperError;
    var line := m.outbox[0];
    var d' := Hear(d, line);
    ReportedEntries(d, m);
    SameOwners(d.entries, d'.entries, d.control.ops);
    RestOfExchange(d.status.cmd.pending, m);
    HearCoherent(d, line);
    UnfinishedLine(d, line);
    assert OpsFit(d.control.ops, d'.entries);
    assert RebootNeeded(d'.entries) ==> d.control.ops[REBOOT].Op?;
  }

  lemma RestOfExchange(pending: Option<string>, m: Modem)
    requires Exchange(pending, m) && m.outbox != []
    ensures Exchange(pending, LineTaken(m)) && ProperError(m.outbox[0])
  {
    if pending.Some? && Answering(pending.value, m.outbox, m.settings) {
      RestAnswers(pending.value, m.outbox, m.settings);
    }
    hide Answering;
  }

  lemma UnfinishedLine(d: Driver, line: string)
    requires !Ends(line)
    ensures var d' := Hear(d, line);
            && d'.control == d.control && d'.status.cmd == d.status.cmd
            && d'.status.link.atOk == d.status.link.atOk
            && d'.status.link.echoDisabled == d.status.link.echoDisabled
            && (d.status.link.rdy ==> d'.status.link.rdy)
  {
    ErrorValueEndsCommand(line);
    assert !Parse(line).ok && !Parse(line).error && Parse(line).cmeError.None?;
    hide Parse, Changes;
  }

  /** The line acknowledges a command that assigns the entry. */
  predicate IsAcknowledged(e: Entry, command: string, line: string) {
    line == "OK" && AssignedName(command) == Some(e.name)
  }

  /** The confirmation of an assignment marks exactly the entry that it names, and the modem has
      taken its value over. */
  lemma ConfirmedEntries(d: Driver, m: Modem)
    requires Aligned(d, m) && d.status.cmd.pending.Some? && m.inbox == []
    requires m.outbox != [] && Ends(m.outbox[0])
    requires !Confirms(d.status.cmd.pending, Parse(m.outbox[0]), AT_REBOOT)
    ensures var es, fs := d.entries, Hear(d, m.outbox[0]).entries;
            && SameSettings(es, fs) && WellNamed(fs) && Truthful(fs, m.settings)
            && (fs != es ==> In(d.control.ops[ASSIGN_QCFG], Submitted))
            && (Lacks(es, Unknown) ==> Lacks(fs, Unknown))
            && (forall i :: 0 <= i < |es| ==>
                  fs[i].state == if IsAcknowledged(es[i], d.status.cmd.pending.value, m.outbox[0]) then Modified
                                 else es[i].state)
  {
    hide InProgress, SettingsFirst, PlainText, AtMostOneSubmitted, Accounted;
    var line := m.outbox[0];
    var es, fs := d.entries, Hear(d, line).entries;
    ResultEntries(d, line);
    AssignedEntryIsRight(d, m);
    hide Parse, Hear, AssignedName, RequestIn, Understood, Exchange, Coherent, WellNamed, OpsFit;
    if forall i :: 0 <= i < |es| ==> !IsAcknowledged(es[i], d.status.cmd.pending.value, line) {
      assert forall i :: 0 <= i < |es| ==> fs[i] == es[i];
      assert fs == es;
    }
  }

  /** What a final result does to each entry. */
  lemma ResultEntries(d: Driver, line: string)
    requires WellNamed(d.entries) && d.status.cmd.pending.Some? && Ends(line) && Parse(line).setting.None?
    requires !Confirms(d.status.cmd.pending, Parse(line), AT_REBOOT)
    ensures var es, fs := d.entries, Hear(d, line).entries;
            && SameSettings(es, fs) && WellNamed(fs)
            && (forall i :: 0 <= i < |es| ==>
                  fs[i].state == if IsAcknowledged(es[i], d.status.cmd.pending.value, line) then Modified
                                 else es[i].state)
  {
    hide AssignedName, WellNamed, EntriesAfter, ValueOf, ListedCall, ReportedSetting;
    EntriesHeard(d.entries, d.status.cmd.pending, Parse(line));
  }

  /** An acknowledged entry is as wanted, and the assignment is in flight. */
  lemma AssignedEntryIsRight(d: Driver, m: Modem)
    requires Aligned(d, m) && d.status.cmd.pending.Some? && m.inbox == [] && m.outbox != [] && Ends(m.outbox[0])
    ensures Parse(m.outbox[0]).setting.None?
    ensures forall i :: 0 <= i < |d.entries|
                        && IsAcknowledged(d.entries[i], d.status.cmd.pending.value, m.outbox[0]) ==>
              Right(d.entries[i], m.settings) && In(d.control.ops[ASSIGN_QCFG], Submitted)
  {
    hide Parse, AssignedName, RequestIn, PlainText, Coherent, SettingsFirst, InProgress, OpsFit, Truthful;
    var c, es := d.status.cmd.pending.value, d.entries;
    var k := PendingOperation(d, m);
    if m.outbox[0] == "OK" && AssignedName(c).Some? {
      assert Took(m.settings, RequestIn(c)) && Owns(es, RequestIn(c).name, RequestIn(c).value);
    }
  }

  /** A final result other than the confirmation of a reboot. */
  lemma ResultKeepsAligned(d: Driver, m: Modem)
    requires Aligned(d, m) && d.status.cmd.pending.Some? && m.inbox == []
    requires m.outbox != [] && Ends(m.outbox[0])
    requires !Confirms(d.status.cmd.pending, Parse(m.outbox[0]), AT_REBOOT)
    ensures Aligned(Hear(d, m.outbox[0]), LineTaken(m))
  {
    var line := m.outbox[0];
    var d' := Hear(d, line);
    ConfirmedEntries(d, m);
    SameOwners(d.entries, d'.entries, d.control.ops);
    RestAnswers(d.status.cmd.pending.value, m.outbox, m.settings);
    HearCoherent(d, line);
    var k := PendingOperation(d, m);
    FinalLine(d, line);
    assert Exchange(d'.status.cmd.pending, LineTaken(m));
    hide Exchange, Hear, WellNamed, Truthful, FromEntries, Coherent, InFlight, Ends, ProperError, Parse,
         Understood, RequestIn;
    assert OpsFit(d.control.ops, d'.entries);
  }

  lemma FinalLine(d: Driver, line: string)
    requires Ends(line) && !Confirms(d.status.cmd.pending, Parse(line), AT_REBOOT)
    ensures var d' := Hear(d, line);
            && d'.control == d.control && d'.status.cmd.pending.None?
            && (d'.status.cmd.ok ==> d.status.cmd.ok || line == "OK")
            && (d.status.link.echoDisabled ==> d'.status.link.echoDisabled)
            && (d'.status.link.echoDisabled ==>
                  d.status.link.echoDisabled || d.status.cmd.pending == Some(AT_DISABLE_ECHO))
            && (d.status.link.rdy ==> d'.status.link.rdy)
  {
    assert Parse(line).ok ==> line == "OK";
    hide Parse, Changes;
  }

  /** The confirmation of the reboot finds every setting as wanted. */
  lemma RebootReconciles(d: Driver, m: Modem)
    requires Aligned(d, m) && m.outbox != [] && m.inbox == []
    requires Confirms(d.status.cmd.pending, Parse(m.outbox[0]), AT_REBOOT)
    ensures Reconciled(Hear(d, m.outbox[0]), LineTaken(m))
  {
    hide Coherent, Exchange, SettingsFirst, InProgress, FromEntries, OpsFit, Truthful, Parse, Hear;
    var line := m.outbox[0];
    var d' := Hear(d, line);
    RebootForgets(d, line);
    RebootFindsAllRight(d, m);
    SameOwners(d.entries, d'.entries, d.control.ops);
  }

  /** While the reboot is in progress, it is alone, every setting is as wanted, and nothing is
      reported. */
  lemma RebootFindsAllRight(d: Driver, m: Modem)
    requires Aligned(d, m) && m.outbox != [] && m.inbox == []
    requires Confirms(d.status.cmd.pending, Parse(m.outbox[0]), AT_REBOOT)
    ensures AllRight(d.entries, m.settings)
    ensures FromEntries(d.control.ops, d.entries) && d.control.ops[ASSIGN_QCFG].Absent?
    ensures In(d.control.ops[REBOOT], Submitted) && AtMostOneSubmitted(d.control.ops)
    ensures AllCalm(m.outbox[1..])
  {
    hide WellNamed, InProgress, SettingsFirst, FromEntries, RequestIn, AssignedName, Understood;
    var k := PendingOperation(d, m);
    RestAnswers(d.status.cmd.pending.value, m.outbox, m.settings);
  }

  lemma RebootForgets(d: Driver, line: string)
    requires WellNamed(d.entries) && Confirms(d.status.cmd.pending, Parse(line), AT_REBOOT)
    ensures var d' := Hear(d, line);
            && SameSettings(d.entries, d'.entries) && WellNamed(d'.entries)
            && (forall i :: 0 <= i < |d'.entries| ==> d'.entries[i].state == Unknown)
            && d'.status.cmd.pending.None? && d'.status.cmd.ok && d'.control == d.control
  {
    EntriesHeard(d.entries, d.status.cmd.pending, Parse(line));
    hide Parse, WellNamed, EntriesAfter, Changes;
  }

  lemma ReconciledHears(d: Driver, m: Modem)
    requires Reconciled(d, m) && m.outbox != []
    ensures Reconciled(Hear(d, m.outbox[0]), LineTaken(m))
  {
    var line := m.outbox[0];
    var msg := Parse(line);
    var d' := Hear(d, line);
    EntriesHeard(d.entries, d.status.cmd.pending, msg);
    SameOwners(d.entries, d'.entries, d.control.ops);
    assert d'.control == d.control;
    assert d'.status.cmd.pending == d.status.cmd.pending || d'.status.cmd.pending == None;
    assert d.status.cmd.ok ==> d'.status.cmd.ok;
    hide Parse, Hear, WellNamed, FromEntries, AssignedName, RequestIn;
  }

  // ---- the state of the whole system ----

  /** `reboots` bounds how often a reboot can still be sent. */
  predicate Bounded(d: Driver, m: Modem, reboots: nat) {
    || Reconciled(d, m)
    || (Aligned(d, m) && (reboots >= 1 || In(d.control.ops[REBOOT], Submitted)))
  }

  lemma HearBounded(d: Driver, m: Modem, reboots: nat)
    requires Bounded(d, m, reboots) && m.outbox != []
    ensures Bounded(Hear(d, m.outbox[0]), LineTaken(m), reboots)
  {
    assert Hear(d, m.outbox[0]).control == d.control;
    var line := m.outbox[0];
    if Reconciled(d, m) {
      ReconciledHears(d, m);
    } else if Calm(line) {
      CalmLineKeepsAligned(d, m);
    } else {
      assert d.status.cmd.pending.Some? && m.inbox == [];
      if !Ends(line) {
        ReportKeepsAligned(d, m);
      } else if Confirms(d.status.cmd.pending, Parse(line), AT_REBOOT) {
        RebootReconciles(d, m);
      } else {
        ResultKeepsAligned(d, m);
      }
    }
  }

  function HearAll(d: Driver, lines: seq<string>): Driver
    decreases |lines|
  {
    if lines == [] then d else HearAll(Hear(d, lines[0]), lines[1..])
  }

  lemma {:induction false} HearAllBounded(d: Driver, m: Modem, reboots: nat, count: nat)
    requires Bounded(d, m, reboots) && count <= |m.outbox|
    ensures Bounded(HearAll(d, m.outbox[..count]), m.(outbox := m.outbox[count..]), reboots)
    decreases count
  {
    hide Bounded, Hear;
    if count > 0 {
      HearBounded(d, m, reboots);
      HearAllBounded(Hear(d, m.outbox[0]), LineTaken(m), reboots, count - 1);
      assert m.outbox[..count][1..] == m.outbox[1..][..count - 1];
      assert m.outbox[count..] == m.outbox[1..][count - 1..];
    } else {
      assert m.outbox[0..] == m.outbox;
    }
  }

  lemma {:induction false} HearAllIsApplyLines(d: Driver, lines: seq<string>)
    ensures HearAll(d, lines) == d.(status := ApplyLines(d.status, d.entries, lines).0,
                                    entries := ApplyLines(d.status, d.entries, lines).1)
    decreases |lines|
  {
    if lines != [] { HearAllIsApplyLines(Hear(d, lines[0]), lines[1..]); }
  }

  // ---- the driver makes a pass ----

  /** The slots fit the entries and the status. */
  predicate Fits(c: Control, s: Status, es: seq<Entry>) {
    OpsFit(c.ops, es) && SettingsFirst(c, s.link, s.cmd.ok, es)
  }

  lemma QcfgFits(c: Control, s: Status, es: seq<Entry>)
    requires Fits(c, s, es) && s.link.echoDisabled && c.ops[REBOOT].Absent?
    ensures Fits(QcfgApplied(c, es, s.cmd.error), s, es)
  {
    var r := QcfgApplied(c, es, s.cmd.error);
    if StartsReboot(c.ops, es) {
    } else {
      var e := FirstIn(es, Unknown);
      var e' := FirstIn(es, Mismatch);
      assert r.ops[QUERY_QCFG].Op? ==> HasName(es, r.ops[QUERY_QCFG].arg);
      assert r.ops[ASSIGN_QCFG].Op? ==> Owns(es, r.ops[ASSIGN_QCFG].arg, r.ops[ASSIGN_QCFG].value);
      hide HasName, Owns, RebootNeeded;
    }
  }

  lemma PinFits(c: Control, s: Status, es: seq<Entry>, wanted: string)
    requires Fits(c, s, es) && s.link.echoDisabled
    ensures Fits(PinApplied(c, wanted, s.cmd.cmeError.Some?, s.sim.cpin), s, es)
  {
    hide HasName, Owns, Lacks;
  }

  lemma PowerFits(c: Control, s: Status, es: seq<Entry>, power: string)
    requires Fits(c, s, es) && s.link.echoDisabled
    ensures Fits(PowerApplied(c, power, s.cmd.error, s.link.poweredDown), s, es)
  {
    hide HasName, Owns, Lacks;
  }

  predicate RingIsInert(cfg: Config) { cfg.ring.Some? ==> Inert(cfg.ring.value) }

  lemma TelephonyFits(c: Control, s: Status, es: seq<Entry>, cfg: Config)
    requires Fits(c, s, es) && s.link.echoDisabled && RingIsInert(cfg)
    ensures Fits(Telephony(c, s, cfg), s, es)
  {
    TelephonySettles(c, s, cfg);
    TelephonyKeeps(c, s, cfg);
    TelephonyRings(c, s, cfg);
    hide HasName, Owns, Lacks, Telephony, TelephonyDone;
  }

  lemma TelephonyRings(c: Control, s: Status, cfg: Config)
    ensures var op := Telephony(c, s, cfg).ops[RING];
            op == if cfg.ring.Some? && c.ringCount != s.counts.ring then New(cfg.ring.value, "") else c.ops[RING]
  {
    var c1 := HangUpApplied(c, cfg.call, s.calls.current);
    assert c1.ops[RING] == c.ops[RING] && c1.ringCount == c.ringCount;
    hide HangUpApplied;
    var c2 := CallListApplied(c1, ReadyForTelephony(s.sim), s.calls.upToDate);
    assert c2.ops[RING] == c1.ops[RING] && c2.ringCount == c1.ringCount;
    hide CallListApplied;
    if cfg.call.Some? {
      var c3 := CallApplied(c2, cfg.call.value, ReadyForTelephony(s.sim), s.calls, s.counts.noCarrier);
      assert c3.ops[RING] == c2.ops[RING] && c3.ringCount == c2.ringCount;
    }
  }

  lemma CheckedFits(c: Control, s: Status, es: seq<Entry>)
    requires Fits(c, s, es)
    ensures Fits(Checked(c, s), s, es)
    ensures !Early(Checked(c, s), s) ==> Fits(EchoChecked(Checked(c, s), s), s, es)
  {
    hide HasName, Owns, Lacks, First;
  }

  lemma PreparedFits(c: Control, s: Status, es: seq<Entry>, cfg: Config)
    requires Fits(c, s, es) && RingIsInert(cfg)
    ensures Fits(Prepared(c, s, es, cfg), s, es)
  {
    CheckedFits(c, s, es);
    var c1 := Checked(c, s);
    var c2 := EchoChecked(c1, s);
    PreparedIs(c, s, es, cfg);
    if !Early(c1, s) && s.link.echoDisabled {
      hide Fits, QcfgApplied, PinApplied, PowerApplied, Telephony, Prepared, Completed;
      assert c2.ops[REBOOT].Absent?;
      QcfgFits(c2, s, es);
      var c3 := QcfgApplied(c2, es, s.cmd.error);
      PinFits(c3, s, es, cfg.pin);
      PowerFits(PinApplied(c3, cfg.pin, s.cmd.cmeError.Some?, s.sim.cpin), s, es, cfg.power);
      TelephonyFits(Maintained(c2, s, es, cfg), s, es, cfg);
    }
  }

  function Posted(m: Modem, sent: Option<Sent>): Modem {
    m.(inbox := m.inbox + if sent.Some? then [sent.value.command] else [])
  }

  /** While a command is pending, a pass sends nothing, unless it overtakes the pin or the ring command. */
  lemma PendingPassIsSilent(d: Driver, m: Modem, cfg: Config)
    requires Aligned(d, m) && RingIsInert(cfg) && d.status.cmd.pending.Some? && !Overtakes(d, cfg)
    ensures var r := Prepared(d.control, d.status, d.entries, cfg);
            SentBy(r).None? && InFlight(r.ops) && !Reboots(d.control, d.status, d.entries)
  {
    var k := PendingOperation(d, m);
    assert Waiting(d.control, d.status, d.entries, cfg, k) by {
      hide Prepared, WellNamed, Truthful, OpsFit, Exchange, Understood, RequestIn, InFlight;
    }
    hide Aligned, Prepared;
    WaitingIsSpared(d.control, d.status, d.entries, cfg, k);
  }

  /** The exact condition: with a command pending, a pass sends another one if and only if it
      overtakes the pin or the ring command. */
  lemma PendingPassSendsExactlyIfOvertaking(d: Driver, m: Modem, cfg: Config)
    requires Aligned(d, m) && RingIsInert(cfg) && d.status.cmd.pending.Some?
    ensures SentAt(d, Pass([], cfg)).Some? <==> Overtakes(d, cfg)
  {
    hide Prepared, Chosen, CommandOf, WellNamed, Truthful, Exchange, ReportedCall, FromEntries, Lacks;
    PassWithoutLines(d, cfg);
    if Overtakes(d, cfg) {
      OvertakenIsPending(d.control, d.status, d.entries, cfg);
      OvertakingPassIsIdle(d, m, cfg, if OvertakesPin(d, cfg) then SET_PIN else RING);
    } else {
      PendingPassIsSilent(d, m, cfg);
      NothingChosenInFlight(Prepared(d.control, d.status, d.entries, cfg).ops);
    }
  }

  lemma NothingChosenInFlight(ops: Slots)
    ensures InFlight(ops) ==> Chosen(ops).None?
    ensures !InFlight(ops) && (exists k: Kind :: In(ops[k], Pending)) ==> Chosen(ops).Some?
  {
    PendingMeans(ops);
  }

  lemma OvertakingPassIsIdle(d: Driver, m: Modem, cfg: Config, k: Kind)
    requires Aligned(d, m) && d.status.cmd.pending.Some? && In(d.control.ops[k], Submitted)
    requires In(Prepared(d.control, d.status, d.entries, cfg).ops[k], Pending)
    ensures Chosen(Prepared(d.control, d.status, d.entries, cfg).ops).Some?
  {
    hide Prepared, Chosen, WellNamed, Truthful, Exchange, OpsFit, SettingsFirst, InProgress;
    var ops := Prepared(d.control, d.status, d.entries, cfg).ops;
    PreparedKeeps(d.control, d.status, d.entries, cfg);
    InFlightMeans(ops);
    NothingChosenInFlight(ops);
  }

  lemma OvertakenIsPending(c: Control, s: Status, es: seq<Entry>, cfg: Config)
    requires c.ops[REBOOT].Absent? && !RebootNeeded(es) && Clean(s.cmd) && s.link.rdy && s.link.echoDisabled
    ensures s.sim.cpin == Some("SIM PIN") && cfg.pin != "" && cfg.pin != c.pin && In(c.ops[SET_PIN], Submitted) ==>
              In(Prepared(c, s, es, cfg).ops[SET_PIN], Pending)
    ensures cfg.ring.Some? && c.ringCount != s.counts.ring ==> In(Prepared(c, s, es, cfg).ops[RING], Pending)
  {
    hide Telephony, RebootNeeded, FirstIn, First;
    PreparedIs(c, s, es, cfg);
    var c2 := EchoChecked(Checked(c, s), s);
    DemandedIs(c2, s, es, cfg);
    var c3 := Maintained(c2, s, es, cfg);
    TelephonySettles(c3, s, cfg);
    TelephonyRings(c3, s, cfg);
    assert c3.ringCount == c.ringCount;
  }

  lemma PendingPassKeepsAligned(d: Driver, m: Modem, cfg: Config)
    requires Aligned(d, m) && RingIsInert(cfg) && d.status.cmd.pending.Some? && !Overtakes(d, cfg)
    ensures Aligned(Step(d, Pass([], cfg)), m)
    ensures In(d.control.ops[REBOOT], Submitted) ==> In(Step(d, Pass([], cfg)).control.ops[REBOOT], Submitted)
  {
    hide ReportedCall;
    var r := Prepared(d.control, d.status, d.entries, cfg);
    PendingPassIsSilent(d, m, cfg);
    PreparedFits(d.control, d.status, d.entries, cfg);
    PreparedKeeps(d.control, d.status, d.entries, cfg);
    StepCoherent(d, Pass([], cfg));
    PassWithoutLines(d, cfg);
    if In(d.control.ops[REBOOT], Submitted) {
      RebootStays(d.control, d.status, d.entries, cfg);
    }
    assert Step(d, Pass([], cfg)).control == r && Step(d, Pass([], cfg)).status == d.status;
    hide Prepared, Step, WellNamed, Truthful, Exchange, Lacks, OpsFit, InFlight, RebootNeeded, Coherent;
  }

  /** A pass drops the reboot only if its result is positive. */
  lemma RebootStays(c: Control, s: Status, es: seq<Entry>, cfg: Config)
    requires c.ops[REBOOT].Op? && !s.cmd.ok
    ensures Prepared(c, s, es, cfg).ops[REBOOT] == c.ops[REBOOT]
  {
    hide Demanded;
  }

  /** With nothing in flight, everything in front of the operation to be submitted is absent. */
  lemma ChosenMeans(ops: Slots)
    requires Chosen(ops).Some?
    ensures var k := Chosen(ops).value;
            && In(ops[k], Pending)
            && (forall j: Kind :: !In(ops[j], Submitted))
            && (forall j: Kind :: j < k ==> ops[j].Absent?)
  {
    InFlightMeans(ops);
    var k: Kind := Chosen(ops).value;
    forall j: Kind | j < k ensures ops[j].Absent? {
      NoneBefore(ops, j);
    }
  }

  lemma NoneBefore(ops: Slots, j: Kind)
    requires j < First(ops, Pending)
    ensures ops[j].Absent? || In(ops[j], Submitted)
  {
    hide First;
  }

  /** When settings are assigned or telephony starts, all queries were answered. */
  lemma SettledBefore(d: Driver, cfg: Config)
    requires Coherent(d) && Fits(d.control, d.status, d.entries) && RingIsInert(cfg)
    ensures var r := Prepared(d.control, d.status, d.entries, cfg);
            Chosen(r.ops).Some? && (Chosen(r.ops).value == ASSIGN_QCFG || Chosen(r.ops).value >= HANG_UP) ==>
              d.status.link.echoDisabled && r.ops[REBOOT].Absent? && QcfgDone(r, d.entries, d.status.cmd.error)
  {
    var c, s, es := d.control, d.status, d.entries;
    var r := Prepared(c, s, es, cfg);
    PassSettles(c, s, es, cfg);
    PreparedFits(c, s, es, cfg);
    if Chosen(r.ops).Some? {
      ChosenMeans(r.ops);
      hide Prepared, Chosen, QcfgDone, PinDone, PowerDone, TelephonyDone, Lacks, RebootNeeded, Reboots,
           NoticesRefusal, FromEntries, Achieved, Coherent;
    }
  }

  lemma ChosenFits(d: Driver, cfg: Config)
    requires Coherent(d) && Fits(d.control, d.status, d.entries) && RingIsInert(cfg)
    ensures var r := Prepared(d.control, d.status, d.entries, cfg);
            && (RebootNeeded(d.entries) ==> r.ops[REBOOT].Op?)
            && (Chosen(r.ops) == Some(CHECK_READY) ==> !d.status.link.atOk)
            && (Chosen(r.ops) == Some(DISABLE_ECHO) ==> !d.status.link.echoDisabled && d.status.link.atOk)
  {
    var c, s, es := d.control, d.status, d.entries;
    var r := Prepared(c, s, es, cfg);
    PassSettles(c, s, es, cfg);
    PreparedFits(c, s, es, cfg);
    assert RebootNeeded(es) && !s.link.echoDisabled ==> false;
    if Chosen(r.ops).Some? {
      ChosenMeans(r.ops);
    }
    hide Prepared, Chosen, TelephonyDone, Lacks, RebootNeeded, Reboots, NoticesRefusal, Coherent, Settled;
  }

  /** The pass that submits a maintenance command, or nothing. */
  lemma IdlePassKeepsAligned(d: Driver, m: Modem, cfg: Config)
    requires Aligned(d, m) && RingIsInert(cfg) && d.status.cmd.pending.None?
    requires var k := Chosen(Prepared(d.control, d.status, d.entries, cfg).ops);
             k.Some? ==> k.value < HANG_UP
    ensures var e := Pass([], cfg);
            Aligned(Step(d, e), Posted(m, SentAt(d, e)))
  {
    hide ReportedCall, Prepared, Step, WellNamed, Truthful, Lacks, RebootNeeded, Coherent;
    var r := Prepared(d.control, d.status, d.entries, cfg);
    var e := Pass([], cfg);
    var d' := Step(d, e);
    PreparedFits(d.control, d.status, d.entries, cfg);
    ChosenFits(d, cfg);
    SettledBefore(d, cfg);
    StepCoherent(d, e);
    PassWithoutLines(d, cfg);
    if Chosen(r.ops).None? {
      assert m.inbox + [] == m.inbox;
      assert d'.control == r && d'.status == d.status && d'.entries == d.entries;
      hide Prepared, Step, WellNamed, Truthful, Exchange, Lacks, OpsFit, InFlight, RebootNeeded, Coherent;
    } else {
      ChosenMeans(r.ops);
      LaunchedFits(r, d.status, d.entries);
      assert m.inbox + [SentAt(d, e).value.command] == [SentAt(d, e).value.command];
      assert d'.entries == d.entries;
      hide Prepared, Step, WellNamed, Truthful, Lacks, Fits, OpsFit, SettingsFirst, First, RebootNeeded, Coherent;
    }
  }

  lemma LaunchedFits(r: Control, s: Status, es: seq<Entry>)
    requires Fits(r, s, es) && Chosen(r.ops).Some? && Chosen(r.ops).value < HANG_UP
    requires RebootNeeded(es) ==> r.ops[REBOOT].Op?
    requires Chosen(r.ops) == Some(CHECK_READY) ==> !s.link.atOk
    requires Chosen(r.ops) == Some(DISABLE_ECHO) ==> !s.link.echoDisabled && s.link.atOk
    requires Chosen(r.ops) == Some(ASSIGN_QCFG) ==> QcfgDone(r, es, s.cmd.error)
    ensures Fits(Launch(r), AfterSend(s, SentBy(r)), es)
    ensures InProgress(Launch(r).ops, AfterSend(s, SentBy(r)).link, es)
  {
    hide Chosen, First, RebootNeeded, InFlight, Lacks, CommandOf;
    ChosenMeans(r.ops);
    InFlightMeans(Launch(r).ops);
    var k := Chosen(r.ops).value;
    assert In(Launch(r).ops[k], Submitted);
    hide Chosen, First, RebootNeeded, InFlight, Lacks, CommandOf;
  }

  /** Telephony starts once every setting is confirmed. */
  lemma TelephonyReconciles(d: Driver, m: Modem, cfg: Config)
    requires Aligned(d, m) && RingIsInert(cfg) && d.status.cmd.pending.None?
    requires var k := Chosen(Prepared(d.control, d.status, d.entries, cfg).ops);
             k.Some? && k.value >= HANG_UP
    ensures var e := Pass([], cfg);
            Reconciled(Step(d, e), Posted(m, SentAt(d, e))) && SentAt(d, e).value.command != AT_REBOOT
    ensures forall i :: 0 <= i < |d.entries| ==> d.entries[i].state == Confirmed
  {
    hide ReportedCall, Prepared, Step, SentAt, WellNamed, Truthful, Lacks, SettingsFirst, First, RebootNeeded, Coherent,
         Exchange, FromEntries, AllRight, TrueReports, Harmless, CommandOf, OpsFit, AllCalm, Launch;
    var e := Pass([], cfg);
    var r := Prepared(d.control, d.status, d.entries, cfg);
    StepAtMostOne(d, e);
    PassWithoutLines(d, cfg);
    ChosenMeans(r.ops);
    TelephonyFindsAllConfirmed(d, m, cfg);
    CalmIsTrue(m.outbox, d.entries);
    LaunchKeepsNames(r, d.entries);
    var k := Chosen(r.ops).value;
    CommandMeans(k, r.ops, d.entries);
    var c := CommandOf(k, r.ops[k]);
    assert SentBy(r) == Some(Sent(k, c));
    assert m.inbox + [c] == [c];
  }

  lemma StepAtMostOne(d: Driver, e: Event)
    requires Coherent(d) && ProperEvent(e)
    ensures AtMostOneSubmitted(Step(d, e).control.ops)
  {
    hide Step;
    StepCoherent(d, e);
  }

  lemma CalmIsTrue(lines: seq<string>, es: seq<Entry>)
    requires AllCalm(lines)
    ensures TrueReports(lines, es)
  {
    hide Parse, ProperError, Ends;
  }

  lemma LaunchKeepsNames(r: Control, es: seq<Entry>)
    requires FromEntries(r.ops, es) && r.ops[ASSIGN_QCFG].Absent? && r.ops[REBOOT].Absent?
    ensures FromEntries(Launch(r).ops, es) && Launch(r).ops[ASSIGN_QCFG].Absent? && Launch(r).ops[REBOOT].Absent?
  {
    hide HasName, Owns, First;
  }

  lemma TelephonyFindsAllConfirmed(d: Driver, m: Modem, cfg: Config)
    requires Aligned(d, m) && RingIsInert(cfg) && d.status.cmd.pending.None?
    requires var k := Chosen(Prepared(d.control, d.status, d.entries, cfg).ops);
             k.Some? && k.value >= HANG_UP
    ensures var ops := Prepared(d.control, d.status, d.entries, cfg).ops;
            FromEntries(ops, d.entries) && ops[ASSIGN_QCFG].Absent? && ops[REBOOT].Absent?
    ensures forall i :: 0 <= i < |d.entries| ==> d.entries[i].state == Confirmed
    ensures Lacks(d.entries, Unknown) && Lacks(d.entries, Mismatch) && Lacks(d.entries, Modified)
    ensures AllRight(d.entries, m.settings) && m.inbox == [] && AllCalm(m.outbox)
  {
    hide Prepared, Chosen, WellNamed, SettingsFirst, Coherent, FromEntries, AllCalm;
    PreparedFits(d.control, d.status, d.entries, cfg);
    SettledBefore(d, cfg);
    ChosenMeans(Prepared(d.control, d.status, d.entries, cfg).ops);
  }

  /** The slots never hold an assignment or a reboot. */
  predicate Peaceful(ops: Slots, es: seq<Entry>) {
    FromEntries(ops, es) && ops[ASSIGN_QCFG].Absent? && ops[REBOOT].Absent?
  }

  lemma ReconciledPrepares(d: Driver, m: Modem, cfg: Config)
    requires Reconciled(d, m) && RingIsInert(cfg)
    ensures var r := Prepared(d.control, d.status, d.entries, cfg);
            Peaceful(r.ops, d.entries) && AtMostOneSubmitted(r.ops)
  {
    var c, s, es := d.control, d.status, d.entries;
    PreparedKeeps(c, s, es, cfg);
    PeacefulChecked(c, s, es);
    var c1 := Checked(c, s);
    var c2 := EchoChecked(c1, s);
    PreparedIs(c, s, es, cfg);
    hide Checked, EchoChecked, Peaceful, Prepared, Demanded, WellNamed, FromEntries, AllHarmless, TrueReports;
    if !Early(c1, s) && s.link.echoDisabled {
      DemandedIs(c2, s, es, cfg);
      PeacefulMaintained(c2, s, es, cfg);
      PeacefulTelephony(Maintained(c2, s, es, cfg), s, es, cfg);
    }
  }

  lemma PeacefulChecked(c: Control, s: Status, es: seq<Entry>)
    requires AtMostOneSubmitted(c.ops) && FromEntries(c.ops, es) && c.ops[ASSIGN_QCFG].Absent?
    requires c.ops[REBOOT].Op? ==> In(c.ops[REBOOT], Submitted) && s.cmd.ok
    ensures Peaceful(Checked(c, s).ops, es) && Peaceful(EchoChecked(Checked(c, s), s).ops, es)
  {
    RebootRetired(c, s);
    hide HasName, Owns, First;
  }

  lemma PeacefulTelephony(c: Control, s: Status, es: seq<Entry>, cfg: Config)
    requires Peaceful(c.ops, es) && RingIsInert(cfg)
    ensures Peaceful(Telephony(c, s, cfg).ops, es)
  {
    TelephonySettles(c, s, cfg);
    TelephonyRings(c, s, cfg);
    hide Telephony, TelephonyDone, HasName, Owns;
  }

  lemma PeacefulMaintained(c: Control, s: Status, es: seq<Entry>, cfg: Config)
    requires Peaceful(c.ops, es) && Lacks(es, Mismatch) && Lacks(es, Modified)
    ensures Peaceful(Maintained(c, s, es, cfg).ops, es)
  {
    hide PinApplied, PowerApplied, QcfgApplied, Peaceful;
    PeacefulQcfg(c, es, s.cmd.error);
    PeacefulPinAndPower(QcfgApplied(c, es, s.cmd.error), s, es, cfg);
  }

  lemma PeacefulQcfg(c: Control, es: seq<Entry>, error: bool)
    requires Peaceful(c.ops, es) && Lacks(es, Mismatch) && Lacks(es, Modified)
    ensures Peaceful(QcfgApplied(c, es, error).ops, es)
  {
    var e := FirstIn(es, Unknown);
    assert e.Some? ==> HasName(es, e.value.name);
    hide HasName, Owns;
  }

  lemma PeacefulPinAndPower(c: Control, s: Status, es: seq<Entry>, cfg: Config)
    requires Peaceful(c.ops, es)
    ensures var c' := PinApplied(c, cfg.pin, s.cmd.cmeError.Some?, s.sim.cpin);
            Peaceful(PowerApplied(c', cfg.power, s.cmd.error, s.link.poweredDown).ops, es)
  {
    hide HasName, Owns, PinApplied, PowerApplied;
    var c' := PinApplied(c, cfg.pin, s.cmd.cmeError.Some?, s.sim.cpin);
    PinSettles(c, cfg.pin, s.cmd.cmeError.Some?, s.sim.cpin);
    PowerSettles(c', cfg.power, s.cmd.error, s.link.poweredDown);
  }

  lemma RebootRetired(c: Control, s: Status)
    requires AtMostOneSubmitted(c.ops)
    requires c.ops[REBOOT].Op? ==> In(c.ops[REBOOT], Submitted) && s.cmd.ok
    ensures Checked(c, s).ops[REBOOT].Absent?
  {
    InFlightMeans(c.ops);
  }

  lemma ReconciledPass(d: Driver, m: Modem, cfg: Config)
    requires Reconciled(d, m) && RingIsInert(cfg)
    ensures var e := Pass([], cfg);
            && Reconciled(Step(d, e), Posted(m, SentAt(d, e)))
            && (SentAt(d, e).Some? ==> Harmless(SentAt(d, e).value.command))
  {
    hide ReportedCall, Prepared, Step, WellNamed, Lacks, AllRight, TrueReports;
    var e := Pass([], cfg);
    var r := Prepared(d.control, d.status, d.entries, cfg);
    var d' := Step(d, e);
    ReconciledPrepares(d, m, cfg);
    PassWithoutLines(d, cfg);
    assert d'.entries == d.entries;
    if Chosen(r.ops).None? {
      assert m.inbox + [] == m.inbox;
      assert d'.status == d.status && d'.control == r;
      hide Prepared, Step, SentAt, WellNamed, Lacks, FromEntries, AllRight, TrueReports, AllHarmless;
    } else {
      ChosenMeans(r.ops);
      var k := Chosen(r.ops).value;
      CommandMeans(k, r.ops, d.entries);
      var c := CommandOf(k, r.ops[k]);
      assert FromEntries(Launch(r).ops, d.entries) && AtMostOneSubmitted(Launch(r).ops);
      assert SentAt(d, e) == Some(Sent(k, c)) && d'.status.cmd.pending == Some(c);
      assert AllHarmless(m.inbox + [c]);
      hide Prepared, Step, SentAt, WellNamed, Lacks, FromEntries, AllRight, TrueReports, AllHarmless, Harmless,
           CommandOf, First;
    }
  }

  /** A pass that sends the reboot does so with every setting as wanted, and not twice. */
  lemma RebootIsSentOnce(d: Driver, m: Modem, cfg: Config)
    requires Aligned(d, m) && RingIsInert(cfg) && d.status.cmd.pending.None?
    ensures var e := Pass([], cfg);
            SentAt(d, e).Some? && SentAt(d, e).value.command == AT_REBOOT ==>
              && !In(d.control.ops[REBOOT], Submitted) && In(Step(d, e).control.ops[REBOOT], Submitted)
              && Lacks(d.entries, Unknown) && Lacks(d.entries, Mismatch) && AllRight(d.entries, m.settings)
    ensures var e := Pass([], cfg);
            In(d.control.ops[REBOOT], Submitted) ==>
              SentAt(d, e).None? && In(Step(d, e).control.ops[REBOOT], Submitted)
  {
    hide ReportedCall;
    var r := Prepared(d.control, d.status, d.entries, cfg);
    PreparedFits(d.control, d.status, d.entries, cfg);
    PassWithoutLines(d, cfg);
    if In(d.control.ops[REBOOT], Submitted) {
      RebootStays(d.control, d.status, d.entries, cfg);
      InFlightMeans(r.ops);
    } else if Chosen(r.ops).Some? {
      ChosenMeans(r.ops);
      CommandMeans(Chosen(r.ops).value, r.ops, d.entries);
      hide Prepared, WellNamed, First, CommandOf, Coherent, Exchange, FromEntries;
    }
  }

  /** One pass of the driver, once it has heard its lines. */
  lemma PassBounded(d: Driver, m: Modem, reboots: nat, cfg: Config)
    requires Bounded(d, m, reboots) && RingIsInert(cfg) && !Overtakes(d, cfg)
    ensures var e := Pass([], cfg);
            if SentAt(d, e).Some? && SentAt(d, e).value.command == AT_REBOOT
            then reboots >= 1 && Bounded(Step(d, e), Posted(m, SentAt(d, e)), reboots - 1)
                 && Lacks(d.entries, Unknown) && Lacks(d.entries, Mismatch) && AllRight(d.entries, m.settings)
            else Bounded(Step(d, e), Posted(m, SentAt(d, e)), reboots)
  {
    hide Aligned, Reconciled, Step, AllRight, Lacks, Prepared;
    var r := Prepared(d.control, d.status, d.entries, cfg);
    if Reconciled(d, m) {
      ReconciledPass(d, m, cfg);
    } else if d.status.cmd.pending.Some? {
      PendingPassIsSilent(d, m, cfg);
      PendingPassKeepsAligned(d, m, cfg);
      PassWithoutLines(d, cfg);
      assert m.inbox + [] == m.inbox;
    } else {
      RebootIsSentOnce(d, m, cfg);
      if Chosen(r.ops).Some? && Chosen(r.ops).value >= HANG_UP {
        TelephonyReconciles(d, m, cfg);
      } else {
        IdlePassKeepsAligned(d, m, cfg);
      }
    }
  }

  // ---- the modem makes a move ----

  lemma CalmThenReply(command: string, calm: seq<string>, settings: map<string, string>, reply: seq<string>)
    requires AllCalm(calm) && Replies(settings, command, reply)
    ensures Answering(command, calm + reply, SettingsAfter(settings, command, reply))
  {
    var lines := calm + reply;
    var settings' := SettingsAfter(settings, command, reply);
    var r := RequestIn(command);
    assert Ends("OK");
    assert r.AssignOf? || settings' == settings;
    hide Parse, RequestIn, Ends, ProperError;
    forall i | 0 <= i < |lines| && lines[i] == "OK" && r.AssignOf? ensures Took(settings', r) {
      assert i == |calm| + (|reply| - 1);
    }
    hide SettingsAfter, Took;
    forall i | 0 <= i < |lines|
      ensures ProperError(lines[i])
      ensures Parse(lines[i]).setting.Some? ==> Reports(settings', command, Parse(lines[i]).setting.value)
      ensures Ends(lines[i]) ==> i == |lines| - 1 && Parse(lines[i]).setting.None?
    {
      if i < |calm| {
        assert Calm(calm[i]);
      } else {
        assert lines[i] == reply[i - |calm|];
      }
    }
  }

  lemma AnswerKeepsAligned(d: Driver, m: Modem, reply: seq<string>)
    requires Aligned(d, m) && m.inbox != [] && Replies(m.settings, m.inbox[0], reply)
    ensures Aligned(d, Modem(SettingsAfter(m.settings, m.inbox[0], reply), m.inbox[1..], m.outbox + reply))
  {
    var c := d.status.cmd.pending.value;
    assert m.inbox == [c] && AllCalm(m.outbox);
    var k := PendingOperation(d, m);
    CalmThenReply(c, m.outbox, m.settings, reply);
    hide Parse, RequestIn, AssignedName, Replies, Answering, AllCalm, Coherent, SettingsFirst, InProgress, OpsFit, PlainText;
  }

  lemma AnswerKeepsReconciled(d: Driver, m: Modem, reply: seq<string>)
    requires Reconciled(d, m) && m.inbox != [] && Replies(m.settings, m.inbox[0], reply)
    ensures Reconciled(d, Modem(SettingsAfter(m.settings, m.inbox[0], reply), m.inbox[1..], m.outbox + reply))
  {
    hide WellNamed, FromEntries, TrueReports, Replies, Lacks, AllRight, RequestIn, AssignedName;
    TruthfulReplyReports(m.outbox, d.entries, m.settings, m.inbox[0], reply);
  }

  lemma TruthfulReplyReports(lines: seq<string>, es: seq<Entry>, settings: map<string, string>, command: string,
                             reply: seq<string>)
    requires TrueReports(lines, es) && AllRight(es, settings) && Replies(settings, command, reply)
    ensures TrueReports(lines + reply, es)
  {
    hide Parse, RequestIn;
    var all := lines + reply;
    assert forall i :: 0 <= i < |all| ==> all[i] == if i < |lines| then lines[i] else reply[i - |lines|];
  }

  lemma SpeakKeepsBounded(d: Driver, m: Modem, reboots: nat, line: string)
    requires Bounded(d, m, reboots) && Calm(line)
    ensures Bounded(d, m.(outbox := m.outbox + [line]), reboots)
  {
    hide Aligned, Reconciled, Calm;
    if Reconciled(d, m) {
      SpeakKeepsReconciled(d, m, line);
    } else {
      SpeakKeepsAligned(d, m, line);
    }
  }

  lemma SpeakKeepsAligned(d: Driver, m: Modem, line: string)
    requires Aligned(d, m) && Calm(line)
    ensures Aligned(d, m.(outbox := m.outbox + [line]))
  {
    hide Parse, RequestIn, WellNamed, Coherent, OpsFit, SettingsFirst, InProgress, Truthful, Answering, AllCalm;
    CalmMore(m.outbox, line);
    if d.status.cmd.pending.Some? && Answering(d.status.cmd.pending.value, m.outbox, m.settings) {
      AnswerAndMore(d.status.cmd.pending.value, m.outbox, m.settings, line);
    }
  }

  lemma CalmMore(lines: seq<string>, line: string)
    requires Calm(line)
    ensures AllCalm(lines) ==> AllCalm(lines + [line])
  {
    hide Calm;
  }

  lemma AnswerAndMore(command: string, lines: seq<string>, settings: map<string, string>, line: string)
    requires Answering(command, lines, settings) && Calm(line)
    ensures Answering(command, lines + [line], settings)
  {
    hide RequestIn, Took, Reports;
    var more := lines + [line];
    assert forall i :: 0 <= i < |more| ==> more[i] == if i < |lines| then lines[i] else line;
    assert Ends("OK");
    hide Parse;
  }

  lemma SpeakKeepsReconciled(d: Driver, m: Modem, line: string)
    requires Reconciled(d, m) && Calm(line)
    ensures Reconciled(d, m.(outbox := m.outbox + [line]))
  {
    hide WellNamed, FromEntries, Lacks, AllHarmless, AllRight, Parse, Ends;
    var lines := m.outbox + [line];
    assert forall i :: 0 <= i < |lines| ==> lines[i] == if i < |m.outbox| then m.outbox[i] else line;
  }

  // ---- whole runs ----

  /** A pass over the lines is a pass after hearing them. */
  lemma HeardThenPass(d: Driver, lines: seq<string>, cfg: Config)
    ensures var h := HearAll(d, lines);
            && SentIn(d, lines, cfg) == SentAt(h, Pass([], cfg))
            && Applied(d, lines, cfg) == Step(h, Pass([], cfg)).(reported := Applied(d, lines, cfg).reported)
  {
    var h := HearAll(d, lines);
    HearAllIsApplyLines(d, lines);
    assert ApplyLines(h.status, h.entries, []) == (h.status, h.entries);
    hide ApplyLines, Prepared, SentBy, Launch, ReportedCall;
  }

  lemma NothingReported(d: Driver, call: Option<Call>, m: Modem, reboots: nat)
    requires Bounded(d, m, reboots)
    ensures Bounded(d.(reported := call), m, reboots)
  {
    hide OpsFit, SettingsFirst, InProgress, WellNamed, Lacks, AtMostOneSubmitted, FromEntries;
    var d' := d.(reported := call);
    if Coherent(d) {
      assert forall k: Kind :: Accounted(k, d.control.ops[k], d.status.cmd)
                           ==> Accounted(k, d'.control.ops[k], d'.status.cmd);
    }
  }

  lemma PollKeepsBounded(d: Driver, m: Modem, reboots: nat)
    requires Bounded(d, m, reboots)
    ensures Bounded(CallListInvalidated(d), m, reboots)
  {
    hide OpsFit, SettingsFirst, InProgress, WellNamed, Lacks, AtMostOneSubmitted, FromEntries;
    var d' := CallListInvalidated(d);
    if Coherent(d) {
      assert forall k: Kind :: Accounted(k, d.control.ops[k], d.status.cmd)
                           ==> Accounted(k, d'.control.ops[k], d'.status.cmd);
    }
  }

  lemma ExpireKeepsBounded(sys: System, reboots: nat)
    requires Bounded(sys.driver, sys.modem, reboots) && SafeToExpire(sys)
    ensures Bounded(Cancelled(sys.driver), sys.modem, reboots)
  {
    hide Aligned, Reconciled;
    if Reconciled(sys.driver, sys.modem) {
      ExpireKeepsReconciled(sys.driver, sys.modem);
    } else {
      ExpireKeepsAligned(sys);
    }
  }

  /** A command that was given up, and is not going to be answered any more, leaves no trace. */
  lemma ExpireKeepsAligned(sys: System)
    requires Aligned(sys.driver, sys.modem) && SafeToExpire(sys)
    ensures Aligned(Cancelled(sys.driver), sys.modem)
    ensures Cancelled(sys.driver).control.ops[REBOOT] == sys.driver.control.ops[REBOOT]
  {
    hide WellNamed, Truthful, Lacks, HasName, Owns, Answering, AllCalm, RequestIn, Understood, Accounted;
    var d := sys.driver;
    CancelKeepsCoherent(d);
    if d.status.cmd.pending.Some? {
      var k := PendingOperation(d, sys.modem);
    }
  }

  lemma RebootGivenUp(d: Driver, m: Modem)
    requires Aligned(d, m) && d.status.cmd.pending == Some(AT_REBOOT)
    ensures var s := d.status;
            && In(d.control.ops[REBOOT], Submitted) && RebootNeeded(d.entries)
            && s.link.rdy && s.link.echoDisabled && !s.cmd.ok
  {
    hide WellNamed, Truthful, Exchange, FromEntries, RequestIn, Understood, AssignedName, Lacks;
    var k := PendingOperation(d, m);
  }

  lemma RebootStartsAgain(d: Driver, cfg: Config)
    requires In(d.control.ops[REBOOT], Submitted) && RebootNeeded(d.entries) && d.status.cmd.pending.Some?
    requires d.status.link.rdy && d.status.link.echoDisabled
    ensures var d' := Cancelled(d);
            d'.control.ops[REBOOT].Absent? && In(Prepared(d'.control, d'.status, d'.entries, cfg).ops[REBOOT], Pending)
  {
    hide RebootNeeded, First, Demanded;
    var d' := Cancelled(d);
    var c, s, es := d'.control, d'.status, d'.entries;
    PreparedIs(c, s, es, cfg);
    RebootIsPending(EchoChecked(Checked(c, s), s), s, es, cfg);
  }

  /** A reboot that times out is started again by the next pass. */
  lemma TimeoutRestartsReboot(d: Driver, m: Modem, cfg: Config)
    requires Aligned(d, m) && d.status.cmd.pending == Some(AT_REBOOT)
    ensures var d' := Cancelled(d);
            d'.control.ops[REBOOT].Absent? && In(Prepared(d'.control, d'.status, d'.entries, cfg).ops[REBOOT], Pending)
  {
    hide Aligned, Prepared, Cancelled;
    RebootGivenUp(d, m);
    RebootStartsAgain(d, cfg);
  }

  lemma CancelKeepsCoherent(d: Driver)
    requires Coherent(d)
    ensures Coherent(Cancelled(d))
  {
    StepCoherent(d, Timeout);
  }

  predicate SendsReboot(sys: System, move: Move) {
    SentBySystem(sys, move).Some? && SentBySystem(sys, move).value.command == AT_REBOOT
  }

  /** Nothing is left to be queried or assigned, and the modem holds every wanted value. */
  predicate ReadyToReboot(sys: System) {
    Lacks(sys.driver.entries, Unknown) && Lacks(sys.driver.entries, Mismatch)
    && AllRight(sys.driver.entries, sys.modem.settings)
  }

  lemma DriveBounded(sys: System, move: Move, reboots: nat)
    requires Bounded(sys.driver, sys.modem, reboots) && Allowed(sys, move) && move.Drive?
    ensures var next := Next(sys, move);
            if SendsReboot(sys, move)
            then reboots >= 1 && Bounded(next.driver, next.modem, reboots - 1) && ReadyToReboot(next)
            else Bounded(next.driver, next.modem, reboots)
  {
    var d, m, cfg, count := sys.driver, sys.modem, move.cfg, move.count;
    var h := HearAll(d, m.outbox[..count]);
    var e := Pass([], cfg);
    HearAllBounded(d, m, reboots, count);
    HearAllIsApplyLines(d, m.outbox[..count]);
    PassBounded(h, m.(outbox := m.outbox[count..]), reboots, cfg);
    HeardThenPass(d, m.outbox[..count], cfg);
    PassWithoutLines(h, cfg);
    var after := Applied(d, m.outbox[..count], cfg).reported;
    var left := if SendsReboot(sys, move) then reboots - 1 else reboots;
    NothingReported(Step(h, e), after, Posted(m.(outbox := m.outbox[count..]), SentAt(h, e)), left);
    hide Bounded, Step, SentAt, HearAll, Applied, SentIn, Lacks, AllRight;
  }

  lemma NextBounded(sys: System, move: Move, reboots: nat)
    requires Bounded(sys.driver, sys.modem, reboots) && Allowed(sys, move)
    ensures var next := Next(sys, move);
            if SendsReboot(sys, move)
            then reboots >= 1 && Bounded(next.driver, next.modem, reboots - 1) && ReadyToReboot(next)
            else Bounded(next.driver, next.modem, reboots)
  {
    hide Aligned, Reconciled, ReadyToReboot, Calm;
    match move
    case Drive(count, cfg) => DriveBounded(sys, move, reboots);
    case Speak(line) => SpeakKeepsBounded(sys.driver, sys.modem, reboots, line);
    case Poll => PollKeepsBounded(sys.driver, sys.modem, reboots);
    case Expire => ExpireKeepsBounded(sys, reboots);
    case Answer(reply) =>
      if Reconciled(sys.driver, sys.modem) {
        AnswerKeepsReconciled(sys.driver, sys.modem, reply);
      } else {
        AnswerKeepsAligned(sys.driver, sys.modem, reply);
      }
  }

  /** Every reboot of the run is sent with all settings as wanted. */
  predicate RebootsWhenReady(sys: System, moves: seq<Move>)
    decreases |moves|
  {
    moves != [] ==>
      (SendsReboot(sys, moves[0]) ==> ReadyToReboot(Next(sys, moves[0])))
      && RebootsWhenReady(Next(sys, moves[0]), moves[1..])
  }

  lemma {:induction false} RunBounded(sys: System, moves: seq<Move>, reboots: nat)
    requires Bounded(sys.driver, sys.modem, reboots) && AllAllowed(sys, moves)
    ensures Count(CommandsSent(sys, moves), AT_REBOOT) <= reboots
    ensures RebootsWhenReady(sys, moves)
    decreases |moves|
  {
    if moves != [] {
      hide Bounded, Next, SentBySystem, Allowed, ReadyToReboot;
      NextBounded(sys, moves[0], reboots);
      var sent := SentBySystem(sys, moves[0]);
      var later := CommandsSent(Next(sys, moves[0]), moves[1..]);
      RunBounded(Next(sys, moves[0]), moves[1..], if SendsReboot(sys, moves[0]) then reboots - 1 else reboots);
      if sent.Some? {
        assert ([sent.value.command] + later)[1..] == later;
      } else {
        assert [] + later == later;
      }
    }
  }

  /** The driver as constructed, with a modem that has nothing to answer yet. */
  predicate Fresh(sys: System, entries: seq<Entry>) {
    sys.driver == Initial(entries) && sys.modem.inbox == [] && AllCalm(sys.modem.outbox)
  }

  lemma FreshIsAligned(sys: System, entries: seq<Entry>)
    requires Fresh(sys, entries) && WellNamed(entries)
    ensures Aligned(sys.driver, sys.modem)
  {
    InitialIsCoherent(entries);
    hide PlainText, AllCalm, Coherent;
  }

  /** Whatever the settings are to begin with: the modem is rebooted at most once, and not before
      it holds every wanted value. */
  lemma RebootsAtMostOnce(sys: System, entries: seq<Entry>, moves: seq<Move>)
    requires Fresh(sys, entries) && WellNamed(entries) && AllAllowed(sys, moves)
    ensures Count(CommandsSent(sys, moves), AT_REBOOT) <= 1
    ensures RebootsWhenReady(sys, moves)
  {
    FreshIsAligned(sys, entries);
    RunBounded(sys, moves, 1);
  }

  // ---- after the reboot ----

  lemma {:induction false} ReconciledHearsAll(d: Driver, m: Modem, count: nat)
    requires Reconciled(d, m) && count <= |m.outbox|
    ensures Reconciled(HearAll(d, m.outbox[..count]), m.(outbox := m.outbox[count..]))
    decreases count
  {
    hide Reconciled, Hear;
    if count > 0 {
      ReconciledHears(d, m);
      ReconciledHearsAll(Hear(d, m.outbox[0]), LineTaken(m), count - 1);
      assert m.outbox[..count][1..] == m.outbox[1..][..count - 1];
      assert m.outbox[count..] == m.outbox[1..][count - 1..];
    } else {
      assert m.outbox[0..] == m.outbox;
    }
  }

  lemma ExpireKeepsReconciled(d: Driver, m: Modem)
    requires Reconciled(d, m)
    ensures Reconciled(Cancelled(d), m)
  {
    hide WellNamed, Lacks, AllRight, TrueReports, AllHarmless, Harmless, HasName, Owns;
  }

  lemma DriveKeepsReconciled(sys: System, move: Move)
    requires Reconciled(sys.driver, sys.modem) && Honest(sys, move) && move.Drive?
    ensures Reconciled(Next(sys, move).driver, Next(sys, move).modem)
    ensures var sent := SentBySystem(sys, move);
            sent.Some? ==> Harmless(sent.value.command)
  {
    hide Reconciled, Step, SentAt, HearAll, Applied, SentIn, Harmless;
    var d, m, cfg, count := sys.driver, sys.modem, move.cfg, move.count;
    var h, e := HearAll(d, m.outbox[..count]), Pass([], cfg);
    ReconciledHearsAll(d, m, count);
    ReconciledPass(h, m.(outbox := m.outbox[count..]), cfg);
    HeardThenPass(d, m.outbox[..count], cfg);
    ReconciledIgnoresReport(Step(h, e), Applied(d, m.outbox[..count], cfg).reported,
                            Posted(m.(outbox := m.outbox[count..]), SentAt(h, e)));
  }

  lemma ReconciledIgnoresReport(d: Driver, call: Option<Call>, m: Modem)
    requires Reconciled(d, m)
    ensures Reconciled(d.(reported := call), m)
  {
  }

  lemma NextKeepsReconciled(sys: System, move: Move)
    requires Reconciled(sys.driver, sys.modem) && Honest(sys, move)
    ensures Reconciled(Next(sys, move).driver, Next(sys, move).modem)
    ensures var sent := SentBySystem(sys, move);
            sent.Some? ==> Harmless(sent.value.command)
  {
    hide Aligned, Calm, Harmless;
    match move
    case Drive(count, cfg) => DriveKeepsReconciled(sys, move);
    case Answer(reply) => AnswerKeepsReconciled(sys.driver, sys.modem, reply);
    case Speak(line) => SpeakKeepsReconciled(sys.driver, sys.modem, line);
    case Poll => assert Reconciled(CallListInvalidated(sys.driver), sys.modem);
    case Expire => ExpireKeepsReconciled(sys.driver, sys.modem);
  }

  /** Once the reboot was confirmed or telephony has started, no command assigns a setting or reboots
      the modem any more, and no entry is ever found to mismatch: over every further run, with
      timeouts, changing pins and any calls. */
  lemma {:induction false} ReconciledForGood(sys: System, moves: seq<Move>)
    requires Reconciled(sys.driver, sys.modem) && AllHonest(sys, moves)
    ensures AllHarmless(CommandsSent(sys, moves))
    ensures Reconciled(After(sys, moves).driver, After(sys, moves).modem)
    decreases |moves|
  {
    hide Reconciled, Next, SentBySystem, Honest, Harmless;
    if moves != [] {
      NextKeepsReconciled(sys, moves[0]);
      ReconciledForGood(Next(sys, moves[0]), moves[1..]);
    }
  }
}
