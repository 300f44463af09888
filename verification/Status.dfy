/** Protocol state obtained from the modem's lines (src/driver/modem/at_protocol/status.h). */
module Statuses {
  import opened Options
  import opened AtText
  import opened Qcfgs

  datatype CallStat = Unsupported | Active | Dialing | Incoming | Alerting

  datatype Call = Call(number: string, stat: CallStat)

  /** State of the link to the modem. */
  datatype Link = Link(atOk: bool, echoDisabled: bool, rdy: bool, poweredDown: bool)

  /** The command in progress and the results that arrived since it was submitted. */
  datatype Progress = Progress(pending: Option<string>, ok: bool, error: bool, cmeError: Option<string>)

  datatype Sim = Sim(cpin: Option<string>, pinCount: Option<string>)

  /** The call list, as far as it concerns a voice call. */
  datatype Calls = Calls(upToDate: bool, current: Option<Call>)

  datatype Counts = Counts(version: nat, ring: nat, noCarrier: nat, busy: nat)

  /** The attributes of a `Status` object, grouped by what they describe. */
  datatype Status = Status(link: Link, cmd: Progress, sim: Sim, calls: Calls, counts: Counts)

  const INITIAL := Status(Link(false, false, true, false), Progress(None, false, false, None),
                          Sim(None, None), Calls(false, None), Counts(0, 0, 0, 0))

  /** Increment of a 32-bit counter. */
  function Inc(n: nat): nat { (n + 1) % 0x1_0000_0000 }

  const CPIN := "+CPIN: "
  const CME_VALUE := "+CME ERROR: "
  const SIM_PIN_COUNT := "+QPINC: \"SC\","
  const CLCC := "+CLCC: "

  // ---- call list ----

  function StatOf(field: Option<string>): CallStat {
    if field == Some("0") then Active
    else if field == Some("2") then Dialing
    else if field == Some("3") then Alerting
    else if field == Some("4") then Incoming
    else Unsupported
  }

  /** The voice call in a supported state that a line of the call list describes. */
  function ListedCall(line: string): Option<Call> {
    var value := ValueOf(line, CLCC);
    if value == None then None
    else
      var stat := StatOf(CommaElement(2, value.value, 0));
      if CommaElement(3, value.value, 0) == Some("0") && stat != Unsupported
      then Some(Call(CommaElement(5, value.value, 0).GetOr([]), stat))
      else None
  }

  // ---- modem settings ----

  /** Name and value that a QCFG response reports. The value starts behind the name's quotes and
      a comma; a response that is too short for that is ignored. */
  function ReportedSetting(response: string): Option<(string, string)> {
    var name := CommaElement(0, response, 0);
    var skip := (if name == None then 0 else |name.value| + 1) + 2;
    if |response| + 1 < skip then None
    else Some((name.GetOr([]), if skip <= |response| then response[skip..] else []))
  }

  /** The name that a command assigns a value to, as recognised by the driver. */
  function AssignedName(command: string): Option<string> {
    if !(AT_QCFG_PREFIX <= command) then None
    else
      var attr := command[|AT_QCFG_PREFIX|..];
      if CommaElement(1, attr, 0).GetOr([]) == [] then None
      else Some(CommaElement(0, attr, 0).GetOr([]))
  }

  function Acknowledged(es: seq<Entry>, command: string): seq<Entry> {
    var name := AssignedName(command);
    if name == None then es else WithState(es, name.value, Modified)
  }

  // ---- what a line says ----

  /** Everything that `apply_line` asks of a line. */
  datatype Message = Message(
    ok: bool,
    error: bool,
    rdy: bool,
    ring: bool,
    noCarrier: bool,
    poweredDown: bool,
    busy: bool,
    pinRejected: bool,
    endsCommand: bool,
    cpin: Option<string>,
    cmeError: Option<string>,
    pinCount: Option<string>,
    setting: Option<(string, string)>,
    call: Option<Call>)

  function Parse(line: string): Message {
    var response := ValueOf(line, QCFG_RESPONSE);
    Message(
      ok := line == "OK",
      error := line == "ERROR",
      rdy := line == "RDY",
      ring := line == "RING",
      noCarrier := line == "NO CARRIER",
      poweredDown := line == "POWERED DOWN",
      busy := line == "+CME ERROR: 10" || line == "+CME ERROR: 14" || line == "ERROR",
      pinRejected := line == "+CME ERROR: 16",
      endsCommand := line == "OK" || line == "ERROR" || CME_ERROR <= line,
      cpin := ValueOf(line, CPIN),
      cmeError := ValueOf(line, CME_VALUE),
      pinCount := ValueOf(line, SIM_PIN_COUNT),
      setting := if response == None then None else ReportedSetting(response.value),
      call := ListedCall(line))
  }

  // ---- effect of one message, attribute by attribute ----

  function CountIf(b: bool): nat { if b then 1 else 0 }

  predicate Confirms(pending: Option<string>, m: Message, command: string) {
    m.ok && pending == Some(command)
  }

  predicate ClearsCallList(command: string) {
    "ATD" <= command || command == AT_HANG_UP || command == AT_ACCEPT_CALL
  }

  /** The message makes the known call list obsolete. */
  predicate ClearsCalls(pending: Option<string>, m: Message) {
    m.noCarrier || m.ring || Confirms(pending, m, AT_REBOOT)
    || (m.ok && pending.Some? && ClearsCallList(pending.value))
  }

  function LinkAfter(l: Link, pending: Option<string>, m: Message): Link {
    var reboot := Confirms(pending, m, AT_REBOOT);
    Link(atOk := !reboot && (l.atOk || Confirms(pending, m, AT_CHECK_READY)),
         echoDisabled := !reboot && (l.echoDisabled || Confirms(pending, m, AT_DISABLE_ECHO)),
         rdy := !reboot && (l.rdy || m.rdy),
         poweredDown := m.poweredDown)
  }

  function LinkChanges(pending: Option<string>, m: Message): nat {
    CountIf(m.rdy) + CountIf(m.poweredDown)
    + CountIf(Confirms(pending, m, AT_CHECK_READY)) + CountIf(Confirms(pending, m, AT_DISABLE_ECHO))
  }

  function ProgressAfter(p: Progress, m: Message): Progress {
    Progress(pending := if m.endsCommand then None else p.pending,
             ok := p.ok || m.ok,
             error := p.error || m.error,
             cmeError := if Confirms(p.pending, m, AT_REBOOT) then None
                         else if m.cmeError.Some? then m.cmeError else p.cmeError)
  }

  function ProgressChanges(m: Message): nat {
    CountIf(m.ok) + CountIf(m.error) + CountIf(m.cmeError.Some?)
  }

  function SimAfter(s: Sim, pending: Option<string>, m: Message): Sim {
    var reboot := Confirms(pending, m, AT_REBOOT);
    Sim(cpin := if reboot || m.pinRejected then None else if m.cpin.Some? then m.cpin else s.cpin,
        pinCount := if reboot then None else if m.pinCount.Some? then m.pinCount else s.pinCount)
  }

  function SimChanges(m: Message): nat {
    CountIf(m.cpin.Some?) + CountIf(m.pinCount.Some?)
  }

  function CallsAfter(c: Calls, pending: Option<string>, m: Message): Calls {
    var listed := if m.call.Some? then m.call else c.current;
    var current := if ClearsCalls(pending, m) then None else listed;
    Calls(upToDate := Confirms(pending, m, AT_REQUEST_CALL_LIST)
                      || (!ClearsCalls(pending, m) && (c.upToDate || listed.Some?)),
          current := current)
  }

  function CountsAfter(c: Counts, changes: nat, m: Message): Counts {
    Counts(version := c.version + changes + CountIf(m.ring) + CountIf(m.noCarrier) + CountIf(m.busy),
           ring := if m.ring then Inc(c.ring) else c.ring,
           noCarrier := if m.noCarrier then Inc(c.noCarrier) else c.noCarrier,
           busy := if m.busy then Inc(c.busy) else c.busy)
  }

  function Reported(es: seq<Entry>, m: Message): seq<Entry> {
    if m.setting == None then es
    else
      var i := Find(es, m.setting.value.0);
      if i == |es| then es
      else WithState(es, m.setting.value.0,
                     if es[i].value == m.setting.value.1 then Confirmed else Mismatch)
  }

  function EntriesAfter(es: seq<Entry>, pending: Option<string>, m: Message): seq<Entry> {
    var acked := if m.ok && pending.Some?
                 then Acknowledged(Reported(es, m), pending.value) else Reported(es, m);
    if Confirms(pending, m, AT_REBOOT) then Invalidated(acked) else acked
  }

  function EntryChanges(es: seq<Entry>, pending: Option<string>, m: Message): nat {
    var target := if pending.Some? then AssignedName(pending.value) else None;
    CountIf(m.setting.Some? && Find(es, m.setting.value.0) < |es|)
    + CountIf(m.ok && target.Some? && Find(es, target.value) < |es|)
  }

  /** Number of status changes that a message amounts to, apart from counted events. */
  function Changes(es: seq<Entry>, pending: Option<string>, m: Message): nat {
    LinkChanges(pending, m) + ProgressChanges(m) + SimChanges(m) + CountIf(m.call.Some?)
    + EntryChanges(es, pending, m)
  }

  function Apply(s: Status, es: seq<Entry>, m: Message): Status {
    Status(LinkAfter(s.link, s.cmd.pending, m),
           ProgressAfter(s.cmd, m),
           SimAfter(s.sim, s.cmd.pending, m),
           CallsAfter(s.calls, s.cmd.pending, m),
           CountsAfter(s.counts, Changes(es, s.cmd.pending, m), m))
  }

  // ---- commands ----

  function AfterReset(s: Status): Status {
    s.(cmd := Progress(None, false, false, None), counts := s.counts.(version := s.counts.version + 1))
  }

  function AfterSubmit(s: Status, command: string): Status {
    var r := AfterReset(s).(cmd := Progress(Some(command), false, false, None));
    if command == AT_REQUEST_CALL_LIST then r.(calls := Calls(false, None)) else r
  }

  class StatusObject {
    const qcfg: Qcfg

    var link: Link
    var cmd: Progress
    var sim: Sim
    var calls: Calls
    var counts: Counts

    function Value(): Status
      reads this
    {
      Status(link, cmd, sim, calls, counts)
    }

    constructor (qcfg: Qcfg)
      ensures this.qcfg == qcfg && Value() == INITIAL
    {
      this.qcfg := qcfg;
      link := Link(false, false, true, false);
      cmd := Progress(None, false, false, None);
      sim := Sim(None, None);
      calls := Calls(false, None);
      counts := Counts(0, 0, 0, 0);
    }

    /** `Current_call::with_match`, and the scanning of a QCFG response. */
    method ParseLine(line: string) returns (m: Message)
      ensures m == Parse(line)
    {
      var call: Option<Call> := None;
      var value := ValueOf(line, CLCC);
      if value.Some? {
        var voice := CommaSeparatedElement(3, value.value);
        var field := CommaSeparatedElement(2, value.value);
        var number := CommaSeparatedElement(5, value.value);
        var stat := StatOf(field);
        if voice == Some("0") && stat != Unsupported {
          call := Some(Call(number.GetOr([]), stat));
        }
      }
      var setting := None;
      var response := ValueOf(line, QCFG_RESPONSE);
      if response.Some? {
        var name := CommaSeparatedElement(0, response.value);
        var skip := (if name == None then 0 else |name.value| + 1) + 2;
        if |response.value| + 1 >= skip {
          setting := Some((name.GetOr([]), if skip <= |response.value| then response.value[skip..] else []));
        }
      }
      m := Message(line == "OK", line == "ERROR", line == "RDY", line == "RING", line == "NO CARRIER",
                   line == "POWERED DOWN",
                   line == "+CME ERROR: 10" || line == "+CME ERROR: 14" || line == "ERROR",
                   line == "+CME ERROR: 16",
                   line == "OK" || line == "ERROR" || CME_ERROR <= line,
                   ValueOf(line, CPIN), ValueOf(line, CME_VALUE), ValueOf(line, SIM_PIN_COUNT),
                   setting, call);
    }

    method ApplyLine(line: string)
      modifies this, qcfg
      ensures Value() == Apply(old(Value()), old(qcfg.entries), Parse(line))
      ensures qcfg.entries == EntriesAfter(old(qcfg.entries), old(cmd.pending), Parse(line))
    {
      var m := ParseLine(line);
      var e := ApplyQcfgResponse(m);
      var s := ApplySim(m);
      var c := ApplyCalls(m);
      var l := ApplyLink(m);
      var p := ApplyProgress(m);
      ApplyCounts(m, l + p + s + c + e);
    }

    /** Readiness, echo, RDY and POWERED DOWN. */
    method ApplyLink(m: Message) returns (changes: nat)
      modifies this`link
      ensures link == LinkAfter(old(link), cmd.pending, m)
      ensures changes == LinkChanges(cmd.pending, m)
    {
      CommandsDiffer();
      changes := 0;
      link := link.(poweredDown := false);
      if m.poweredDown { changes := changes + 1; link := link.(poweredDown := true); }
      if m.rdy { changes := changes + 1; link := link.(rdy := true); }

      if cmd.pending == Some(AT_CHECK_READY) && m.ok {
        changes := changes + 1;
        link := link.(atOk := true);
      }
      if cmd.pending == Some(AT_DISABLE_ECHO) && m.ok {
        changes := changes + 1;
        link := link.(echoDisabled := true);
      }
      if cmd.pending == Some(AT_REBOOT) && m.ok {
        link := link.(atOk := false, echoDisabled := false, rdy := false);
      }
    }

    /** Result flags, and the completion or failure of the current command. */
    method ApplyProgress(m: Message) returns (changes: nat)
      modifies this`cmd
      ensures cmd == ProgressAfter(old(cmd), m)
      ensures changes == ProgressChanges(m)
    {
      changes := 0;
      if m.cmeError.Some? { changes := changes + 1; cmd := cmd.(cmeError := m.cmeError); }
      if m.ok { changes := changes + 1; cmd := cmd.(ok := true); }
      if m.error { changes := changes + 1; cmd := cmd.(error := true); }
      if cmd.pending == Some(AT_REBOOT) && m.ok {
        cmd := cmd.(cmeError := None);
      }
      if m.endsCommand {
        cmd := cmd.(pending := None);
      }
    }

    method ApplySim(m: Message) returns (changes: nat)
      modifies this`sim
      ensures sim == SimAfter(old(sim), cmd.pending, m)
      ensures changes == SimChanges(m)
    {
      changes := 0;
      if m.cpin.Some? { changes := changes + 1; sim := sim.(cpin := m.cpin); }
      if m.pinCount.Some? { changes := changes + 1; sim := sim.(pinCount := m.pinCount); }
      if m.pinRejected {
        sim := sim.(cpin := None);
      }
      if cmd.pending == Some(AT_REBOOT) && m.ok {
        sim := Sim(None, None);
      }
    }

    method ApplyCalls(m: Message) returns (changes: nat)
      modifies this`calls
      ensures calls == CallsAfter(old(calls), cmd.pending, m)
      ensures changes == CountIf(m.call.Some?)
    {
      CommandsDiffer();
      changes := 0;
      if m.call.Some? { changes := changes + 1; calls := calls.(current := m.call); }
      if m.noCarrier || m.ring {
        calls := Calls(false, None);
      }
      // the call list is not always completed by an OK
      if calls.current.Some? {
        calls := calls.(upToDate := true);
      }
      if m.ok && cmd.pending.Some? {
        if cmd.pending.value == AT_REBOOT {
          calls := Calls(false, None);
        }
        if cmd.pending.value == AT_REQUEST_CALL_LIST {
          calls := calls.(upToDate := true);
        }
        if ClearsCallList(cmd.pending.value) {
          calls := Calls(false, None);
        }
      }
    }

    method ApplyCounts(m: Message, changes: nat)
      modifies this`counts
      ensures counts == CountsAfter(old(counts), changes, m)
    {
      counts := counts.(version := counts.version + changes);
      if m.ring { counts := counts.(version := counts.version + 1, ring := Inc(counts.ring)); }
      if m.noCarrier { counts := counts.(version := counts.version + 1, noCarrier := Inc(counts.noCarrier)); }
      if m.busy { counts := counts.(version := counts.version + 1, busy := Inc(counts.busy)); }
    }

    /** Handle the response to a query or an assignment, and forget all settings once a reboot
        is confirmed. */
    method ApplyQcfgResponse(m: Message) returns (changes: nat)
      modifies qcfg
      ensures qcfg.entries == EntriesAfter(old(qcfg.entries), cmd.pending, m)
      ensures changes == EntryChanges(old(qcfg.entries), cmd.pending, m)
    {
      hide AssignedName, Find, Invalidated, Reported, Acknowledged;
      ghost var es := qcfg.entries;
      changes := ApplyReport(m);
      SameNames(es, m);
      if m.ok && cmd.pending.Some? {
        var more := ApplyAcknowledgement(cmd.pending.value);
        changes := changes + more;
        if cmd.pending.value == AT_REBOOT {
          qcfg.InvalidateAfterReboot();
        }
      }
    }

    method ApplyReport(m: Message) returns (changes: nat)
      modifies qcfg
      ensures qcfg.entries == Reported(old(qcfg.entries), m)
      ensures changes == CountIf(m.setting.Some? && Find(old(qcfg.entries), m.setting.value.0) < |old(qcfg.entries)|)
    {
      hide Find, WithState;
      changes := 0;
      if m.setting.Some? {
        var (name, value) := m.setting.value;
        var i := qcfg.FindEntry(name);
        if i < |qcfg.entries| {
          qcfg.SetState(name, if qcfg.entries[i].value == value then Confirmed else Mismatch);
          changes := 1;
        }
      }
    }

    method ApplyAcknowledgement(command: string) returns (changes: nat)
      modifies qcfg
      ensures qcfg.entries == Acknowledged(old(qcfg.entries), command)
      ensures var name := AssignedName(command);
              changes == CountIf(name.Some? && Find(old(qcfg.entries), name.value) < |old(qcfg.entries)|)
    {
      hide AssignedName, Find;
      changes := 0;
      var name := FindAssignedName(command);
      if name.Some? {
        var i := qcfg.FindEntry(name.value);
        if i < |qcfg.entries| {
          qcfg.SetState(name.value, Modified);
          changes := 1;
        }
      }
    }

    method FindAssignedName(command: string) returns (name: Option<string>)
      ensures name == AssignedName(command)
    {
      if !(AT_QCFG_PREFIX <= command) {
        return None;
      }
      var attr := command[|AT_QCFG_PREFIX|..];
      var value := CommaSeparatedElement(1, attr);
      if value.GetOr([]) == [] {
        return None;
      }
      name := CommaSeparatedElement(0, attr);
      return Some(name.GetOr([]));
    }

    method CommandSubmitted(command: string)
      modifies this
      ensures Value() == AfterSubmit(old(Value()), command)
    {
      CommandCanceled();
      cmd := cmd.(pending := Some(command));
      if command == AT_REQUEST_CALL_LIST {
        calls := Calls(false, None);
      }
    }

    method CommandCanceled()
      modifies this
      ensures Value() == AfterReset(old(Value()))
    {
      cmd := Progress(None, false, false, None);
      counts := counts.(version := counts.version + 1);
    }
  }

  lemma CommandsDiffer()
    ensures AT_REBOOT != AT_CHECK_READY && AT_REBOOT != AT_DISABLE_ECHO
    ensures AT_CHECK_READY != AT_DISABLE_ECHO
    ensures AT_REBOOT != AT_REQUEST_CALL_LIST && !ClearsCallList(AT_REQUEST_CALL_LIST)
  {
    assert "AT+CLCC"[2] != "ATD"[2];
    assert AT_REBOOT[4] != AT_REQUEST_CALL_LIST[4];
  }

  /** A report moves no entry. */
  lemma SameNames(es: seq<Entry>, m: Message)
    ensures |Reported(es, m)| == |es|
    ensures forall name :: Find(Reported(es, m), name) == Find(es, name)
  {
    forall name ensures Find(Reported(es, m), name) == Find(es, name) {
      FindUnchanged(es, Reported(es, m), name);
    }
  }

  /** A state change does not move an entry. */
  lemma {:induction false} FindUnchanged(es: seq<Entry>, fs: seq<Entry>, name: string)
    requires |es| == |fs| && forall i :: 0 <= i < |es| ==> es[i].name == fs[i].name
    ensures Find(es, name) == Find(fs, name)
  {
    if es != [] {
      FindUnchanged(es[1..], fs[1..], name);
    }
  }
}
