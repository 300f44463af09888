/** What each line of the modem means, in terms of its characters
    (src/driver/modem/at_protocol/status.h:252-339). */
module Lines {
  import opened Options
  import opened AtText
  import opened Qcfgs
  import opened Statuses
  import opened Controls
  import opened Drivers

  // ---- what a line says ----

  const NOTHING := Message(false, false, false, false, false, false, false, false, false, None, None, None, None, None)

  /** The line has no prefix that announces a value or an error. */
  predicate Plain(line: string) {
    && !("+CPIN: " <= line) && !("+QPINC: \"SC\"," <= line) && !("+QCFG: " <= line) && !("+CLCC: " <= line)
    && !("+CME ERROR:" <= line)
  }

  lemma PlainSays(line: string)
    requires Plain(line)
    ensures Parse(line) == NOTHING.(ok := line == "OK", error := line == "ERROR", rdy := line == "RDY",
                                    ring := line == "RING", noCarrier := line == "NO CARRIER",
                                    poweredDown := line == "POWERED DOWN", busy := line == "ERROR",
                                    endsCommand := line == "OK" || line == "ERROR")
  {
    assert CME_ERROR <= CME_VALUE && CME_ERROR <= "+CME ERROR: 10" && CME_ERROR <= "+CME ERROR: 14"
           && CME_ERROR <= "+CME ERROR: 16";
  }

  lemma WithoutSign(line: string)
    requires line == [] || line[0] != '+'
    ensures Plain(line)
  {
  }

  lemma WordsArePlain()
    ensures Plain("OK") && Plain("ERROR") && Plain("RDY") && Plain("RING") && Plain("NO CARRIER") && Plain("POWERED DOWN")
  {
    hide Plain;
    WithoutSign("OK");
    WithoutSign("ERROR");
    WithoutSign("RDY");
    WithoutSign("RING");
    WithoutSign("NO CARRIER");
    WithoutSign("POWERED DOWN");
  }

  predicate NulFree(s: string) { forall i :: 0 <= i < |s| ==> s[i] != '\0' }

  /** The lines of the SIM card. */
  lemma SimSays(x: string)
    requires NulFree(x)
    ensures Parse("+CPIN: " + x) == NOTHING.(cpin := Some(x))
    ensures Parse("+QPINC: \"SC\"," + x) == NOTHING.(pinCount := Some(x))
  {
    hide CString, ListedCall, ReportedSetting;
    NulFreeIsWhole(x);
    var line, count := "+CPIN: " + x, "+QPINC: \"SC\"," + x;
    assert line[|CPIN|..] == x && count[|SIM_PIN_COUNT|..] == x;
    assert line[0] == '+' && line[2] == 'P' && count[1] == 'Q' && count[2] == 'P';
    StartsDiffer(line, 2);
    StartsDiffer(count, 1);
    assert SIM_PIN_COUNT[1] == 'Q' && line[1] == 'C' && CPIN[1] == 'C' && QCFG_RESPONSE[2] == 'C';
    NotListed(line);
    NotListed(count);
  }

  lemma StartsDiffer(line: string, i: nat)
    requires i < |line| && 1 <= i <= 2 && line[0] == '+'
    ensures line[i] != CME_ERROR[i] ==> !(CME_ERROR <= line) && !(CME_VALUE <= line)
    ensures line[i] != CLCC[i] ==> !(CLCC <= line)
    ensures line[i] != QCFG_RESPONSE[i] ==> !(QCFG_RESPONSE <= line)
  {
    assert CME_VALUE[i] == CME_ERROR[i];
  }

  /** An error of the equipment, with or without the blank that makes its number known. */
  lemma EquipmentErrorSays(x: string)
    requires NulFree(x)
    ensures Parse("+CME ERROR: " + x)
         == NOTHING.(endsCommand := true, cmeError := Some(x), busy := x == "10" || x == "14", pinRejected := x == "16")
    ensures x == [] || x[0] != ' ' ==> Parse("+CME ERROR:" + x) == NOTHING.(endsCommand := true)
  {
    hide Parse, NulFree;
    NumberedErrorSays(x);
    if x == [] || x[0] != ' ' {
      BareErrorSays(x);
    }
  }

  lemma NumberedErrorSays(x: string)
    requires NulFree(x)
    ensures Parse("+CME ERROR: " + x)
         == NOTHING.(endsCommand := true, cmeError := Some(x), busy := x == "10" || x == "14", pinRejected := x == "16")
  {
    hide CString, ListedCall, ReportedSetting;
    var line := "+CME ERROR: " + x;
    NulFreeIsWhole(x);
    assert line[|CME_VALUE|..] == x && line[..|CME_VALUE|] == CME_VALUE && CME_ERROR <= CME_VALUE;
    assert line[0] == '+' && line[1] == 'C' && line[2] == 'M';
    StartsDiffer(line, 2);
    StartsDiffer(line, 1);
    assert CPIN[2] == 'P' && SIM_PIN_COUNT[1] == 'Q';
    NotListed(line);
    WithNumber(x, "10");
    WithNumber(x, "14");
    WithNumber(x, "16");
  }

  lemma BareErrorSays(x: string)
    requires x == [] || x[0] != ' '
    ensures Parse("+CME ERROR:" + x) == NOTHING.(endsCommand := true)
  {
    hide CString, ListedCall, ReportedSetting;
    var line := "+CME ERROR:" + x;
    assert line[|CME_ERROR|..] == x && line[0] == '+' && line[1] == 'C' && line[2] == 'M';
    StartsDiffer(line, 2);
    StartsDiffer(line, 1);
    assert CPIN[2] == 'P' && SIM_PIN_COUNT[1] == 'Q';
    NotListed(line);
    assert !(CME_VALUE <= line) && !("+CME ERROR: 10" <= line) && !("+CME ERROR: 14" <= line) && !("+CME ERROR: 16" <= line);
  }

  lemma NotListed(line: string)
    ensures !(CLCC <= line) ==> ListedCall(line) == None
  {
  }

  lemma WithNumber(x: string, n: string)
    ensures "+CME ERROR: " + x == "+CME ERROR: " + n <==> x == n
  {
    assert ("+CME ERROR: " + x)[12..] == x && ("+CME ERROR: " + n)[12..] == n;
  }

  // ---- the call list ----

  predicate Digits(d: string) { d != [] && forall i :: 0 <= i < |d| ==> '0' <= d[i] <= '9' }

  lemma {:induction false} DigitsRun(d: string, rest: string)
    requires forall i :: 0 <= i < |d| ==> '0' <= d[i] <= '9'
    requires rest == [] || !('0' <= rest[0] <= '9')
    ensures RunLen(d + rest, IsDigit) == |d|
  {
    if d == [] {
      assert d + rest == rest;
    } else {
      assert (d + rest)[1..] == d[1..] + rest;
      DigitsRun(d[1..], rest);
    }
  }

  /** A number and a comma in front of the rest of a value. */
  lemma NumberFirst(idx: nat, d: string, rest: string, commas: nat)
    requires Digits(d)
    ensures CommaElement(idx, d + "," + rest, commas)
         == if idx == commas then Some(d) else CommaElement(idx, rest, commas + 1)
  {
    var s := d + "," + rest;
    assert s == d + ("," + rest);
    assert s[0] == d[0];
    DigitsRun(d, "," + rest);
    assert KindOf(s) == Number && TokenLen(s) == |d|;
    assert s[..|d|] == d && s[|d|..] == "," + rest;
    var t := "," + rest;
    assert KindOf(t) == SingleChar && t[1..] == rest;
  }

  /** Index, direction, state, mode and conference flag, then the number in quotes and anything else. */
  function CallValue(index: string, direction: string, stat: string, mode: string, many: string, number: string, more: string)
    : string
  {
    index + "," + (direction + "," + (stat + "," + (mode + "," + (many + "," + ("\"" + number + "\"" + more)))))
  }

  lemma CallFields(index: string, direction: string, stat: string, mode: string, many: string, number: string, more: string)
    requires Digits(index) && Digits(direction) && Digits(stat) && Digits(mode) && Digits(many) && PlainText(number)
    ensures var value := CallValue(index, direction, stat, mode, many, number, more);
            && CommaElement(2, value, 0) == Some(stat)
            && CommaElement(3, value, 0) == Some(mode)
            && CommaElement(5, value, 0) == Some(number)
  {
    hide CommaElement;
    var v5 := "\"" + number + "\"" + more;
    var v4 := many + "," + v5;
    var v3 := mode + "," + v4;
    var v2 := stat + "," + v3;
    var v1 := direction + "," + v2;
    NumberFirst(2, index, v1, 0);
    NumberFirst(3, index, v1, 0);
    NumberFirst(5, index, v1, 0);
    NumberFirst(2, direction, v2, 1);
    NumberFirst(3, direction, v2, 1);
    NumberFirst(5, direction, v2, 1);
    NumberFirst(2, stat, v3, 2);
    NumberFirst(3, stat, v3, 2);
    NumberFirst(5, stat, v3, 2);
    NumberFirst(3, mode, v4, 3);
    NumberFirst(5, mode, v4, 3);
    NumberFirst(5, many, v5, 4);
    QuotedLast(number, more);
  }

  lemma QuotedLast(number: string, more: string)
    requires PlainText(number)
    ensures CommaElement(5, "\"" + number + "\"" + more, 5) == Some(number)
  {
    QuotedNameIsElementZero(number, more);
    assert Quoted(number) + more == "\"" + number + "\"" + more;
    Shifted(5, "\"" + number + "\"" + more);
  }

  lemma {:induction false} Shifted(n: nat, s: string)
    ensures CommaElement(n, s, n) == CommaElement(0, s, 0)
  {
    if n > 0 {
      Shifted(n - 1, s);
      ElementShift(n - 1, s, n - 1);
    }
  }

  /** A line of the call list stands for a call exactly if it is a voice call (mode 0) in one of four
      states. */
  lemma CallSays(index: string, direction: string, stat: string, mode: string, many: string, number: string, more: string)
    requires Digits(index) && Digits(direction) && Digits(stat) && Digits(mode) && Digits(many) && PlainText(number)
    requires NulFree(more)
    ensures Parse("+CLCC: " + CallValue(index, direction, stat, mode, many, number, more))
         == NOTHING.(call := if mode != "0" then None
                             else if stat == "0" then Some(Call(number, Active))
                             else if stat == "2" then Some(Call(number, Dialing))
                             else if stat == "3" then Some(Call(number, Alerting))
                             else if stat == "4" then Some(Call(number, Incoming))
                             else None)
  {
    hide Parse, ListedCall, CallValue, NulFree, Digits, PlainText;
    CallLineSays(CallValue(index, direction, stat, mode, many, number, more));
    CallListed(index, direction, stat, mode, many, number, more);
  }

  lemma CallListed(index: string, direction: string, stat: string, mode: string, many: string, number: string, more: string)
    requires Digits(index) && Digits(direction) && Digits(stat) && Digits(mode) && Digits(many) && PlainText(number)
    requires NulFree(more)
    ensures ListedCall("+CLCC: " + CallValue(index, direction, stat, mode, many, number, more))
         == if mode != "0" then None
            else if stat == "0" then Some(Call(number, Active))
            else if stat == "2" then Some(Call(number, Dialing))
            else if stat == "3" then Some(Call(number, Alerting))
            else if stat == "4" then Some(Call(number, Incoming))
            else None
  {
    hide CString, CallValue, CommaElement, NulFree, Digits, PlainText;
    var value := CallValue(index, direction, stat, mode, many, number, more);
    CallFields(index, direction, stat, mode, many, number, more);
    CallValueIsNulFree(index, direction, stat, mode, many, number, more);
    assert NulFree(value) ==> CString(value) == value by { NulFreeIsWhole(value); }
    assert ("+CLCC: " + value)[7..] == value;
  }

  lemma NulFreeIsWhole(s: string)
    ensures NulFree(s) ==> CString(s) == s
  {
    if NulFree(s) { CStringOfPlain(s); }
  }

  lemma CallLineSays(value: string)
    ensures Parse("+CLCC: " + value) == NOTHING.(call := ListedCall("+CLCC: " + value))
  {
    hide ListedCall, CString, ReportedSetting;
    var line := "+CLCC: " + value;
    assert line[0] == '+' && line[1] == 'C' && line[2] == 'L';
    StartsDiffer(line, 2);
    StartsDiffer(line, 1);
    assert CPIN[2] == 'P' && SIM_PIN_COUNT[1] == 'Q' && QCFG_RESPONSE[1] == 'Q';
  }

  lemma CallValueIsNulFree(index: string, direction: string, stat: string, mode: string, many: string, number: string,
                           more: string)
    requires Digits(index) && Digits(direction) && Digits(stat) && Digits(mode) && Digits(many) && PlainText(number)
    requires NulFree(more)
    ensures NulFree(CallValue(index, direction, stat, mode, many, number, more))
  {
  }

  // ---- what a line does ----

  /** Any line makes the driver forget that the modem is powered down, and a known call count as listed. */
  function Heeded(s: Status): Status {
    s.(link := s.link.(poweredDown := false),
       calls := s.calls.(upToDate := s.calls.upToDate || s.calls.current.Some?))
  }

  /** `t` is the new state, with the version counter set aside. */
  predicate Becomes(s: Status, es: seq<Entry>, line: string, t: Status) {
    var r := Apply(s, es, Parse(line));
    r.(counts := r.counts.(version := t.counts.version)) == t
  }

  const WRAP32: nat := 4294967296

  /** A plain line that is none of the six known words changes nothing else. */
  lemma OtherLinesDoNothing(s: Status, es: seq<Entry>, line: string)
    requires Plain(line)
    requires line !in {"OK", "ERROR", "RDY", "RING", "NO CARRIER", "POWERED DOWN"}
    ensures Apply(s, es, Parse(line)) == Heeded(s)
  {
    PlainSays(line);
    hide Parse, AssignedName, Plain, WithState;
  }

  lemma WordsDo(s: Status, es: seq<Entry>)
    ensures Becomes(s, es, "RDY", Heeded(s).(link := s.link.(poweredDown := false, rdy := true)))
    ensures Becomes(s, es, "POWERED DOWN", Heeded(s).(link := s.link.(poweredDown := true)))
    ensures Becomes(s, es, "RING", Heeded(s).(calls := Calls(false, None),
              counts := s.counts.(ring := (s.counts.ring + 1) % WRAP32)))
    ensures Becomes(s, es, "NO CARRIER", Heeded(s).(calls := Calls(false, None),
              counts := s.counts.(noCarrier := (s.counts.noCarrier + 1) % WRAP32)))
    ensures Becomes(s, es, "ERROR", Heeded(s).(cmd := s.cmd.(pending := None, error := true),
              counts := s.counts.(busy := (s.counts.busy + 1) % WRAP32)))
  {
    hide Becomes;
    StateWordsDo(s, es);
    CountedWordsDo(s, es);
  }

  lemma StateWordsDo(s: Status, es: seq<Entry>)
    ensures Becomes(s, es, "RDY", Heeded(s).(link := s.link.(poweredDown := false, rdy := true)))
    ensures Becomes(s, es, "POWERED DOWN", Heeded(s).(link := s.link.(poweredDown := true)))
  {
    hide Parse, Changes, Plain, AssignedName;
    WordsArePlain();
    PlainSays("RDY");
    PlainSays("POWERED DOWN");
  }

  lemma CountedWordsDo(s: Status, es: seq<Entry>)
    ensures Becomes(s, es, "RING", Heeded(s).(calls := Calls(false, None),
              counts := s.counts.(ring := (s.counts.ring + 1) % WRAP32)))
    ensures Becomes(s, es, "NO CARRIER", Heeded(s).(calls := Calls(false, None),
              counts := s.counts.(noCarrier := (s.counts.noCarrier + 1) % WRAP32)))
    ensures Becomes(s, es, "ERROR", Heeded(s).(cmd := s.cmd.(pending := None, error := true),
              counts := s.counts.(busy := (s.counts.busy + 1) % WRAP32)))
  {
    hide Parse, Changes, Plain, AssignedName;
    WordsArePlain();
    PlainSays("RING");
    PlainSays("NO CARRIER");
    PlainSays("ERROR");
  }

  lemma SimLinesDo(s: Status, es: seq<Entry>, x: string)
    requires NulFree(x)
    ensures Becomes(s, es, "+CPIN: " + x, Heeded(s).(sim := s.sim.(cpin := Some(x))))
    ensures Becomes(s, es, "+QPINC: \"SC\"," + x, Heeded(s).(sim := s.sim.(pinCount := Some(x))))
  {
    SimSays(x);
    hide Parse, Changes, AssignedName, NulFree;
  }

  /** An error ends the command. Numbers 10 and 14 mean that the SIM is busy, 16 that the pin was wrong. */
  lemma EquipmentErrorsDo(s: Status, es: seq<Entry>, x: string)
    requires NulFree(x)
    ensures Becomes(s, es, "+CME ERROR: " + x,
              Heeded(s).(cmd := s.cmd.(pending := None, cmeError := Some(x)),
                         sim := s.sim.(cpin := if x == "16" then None else s.sim.cpin),
                         counts := s.counts.(busy := if x == "10" || x == "14" then (s.counts.busy + 1) % WRAP32
                                                     else s.counts.busy)))
    ensures x == [] || x[0] != ' ' ==>
              Apply(s, es, Parse("+CME ERROR:" + x)) == Heeded(s).(cmd := s.cmd.(pending := None))
  {
    EquipmentErrorSays(x);
    hide Parse, Changes, AssignedName, NulFree;
    NothingSaidNothingChanged(es, s.cmd.pending);
  }

  lemma NothingSaidNothingChanged(es: seq<Entry>, pending: Option<string>)
    ensures Changes(es, pending, NOTHING.(endsCommand := true)) == 0 == Changes(es, pending, NOTHING)
  {
    hide AssignedName;
  }

  /** A listed call becomes the current one, and the list counts as valid. */
  lemma CallLinesDo(s: Status, es: seq<Entry>, value: string)
    ensures Becomes(s, es, "+CLCC: " + value,
              if ListedCall("+CLCC: " + value).Some? then Heeded(s).(calls := Calls(true, ListedCall("+CLCC: " + value)))
              else Heeded(s))
  {
    CallLineSays(value);
    hide Parse, ListedCall, Changes, AssignedName;
  }

  /** A positive result, depending on the command it is for. */
  lemma OkDoes(s: Status, es: seq<Entry>)
    ensures var t := Heeded(s).(cmd := s.cmd.(pending := None, ok := true));
            Becomes(s, es, "OK",
              if s.cmd.pending.None? then t
              else
                var c := s.cmd.pending.value;
                if c == "AT" then t.(link := t.link.(atOk := true))
                else if c == "ATE0" then t.(link := t.link.(echoDisabled := true))
                else if c == "AT+CLCC" then t.(calls := t.calls.(upToDate := true))
                else if c == "ATH" || c == "ATA" || "ATD" <= c then t.(calls := Calls(false, None))
                else if c == "AT+CFUN=1,1" then
                  Status(Link(false, false, false, false), t.cmd.(cmeError := None), Sim(None, None), Calls(false, None),
                         t.counts)
                else t)
  {
    WordsArePlain();
    PlainSays("OK");
    CommandsDiffer();
    CallCommandsDiffer(s.cmd.pending.GetOr(""));
    hide Parse, Changes, Plain, AssignedName;
  }

  lemma CallCommandsDiffer(c: string)
    ensures "ATD" <= c ==> c != "AT" && c != "ATE0" && c != "AT+CLCC" && c != "AT+CFUN=1,1"
    ensures "ATH" != "AT+CFUN=1,1" && "ATA" != "AT+CFUN=1,1" && "ATH" != "AT+CLCC" && "ATA" != "AT+CLCC"
  {
    if "ATD" <= c {
      assert c[2] == 'D' && "ATE0"[2] == 'E' && "AT+CLCC"[2] == '+' && "AT+CFUN=1,1"[2] == '+' && |c| >= 3;
    }
  }

  /** A line is counted as a change of the protocol state exactly if it is one of six words, brings a
      value of the SIM card, a numbered error, a call, or a setting of a known entry. */
  lemma CountedExactlyIf(s: Status, es: seq<Entry>, line: string)
    ensures var known := Parse(line).setting.Some? && Find(es, Parse(line).setting.value.0) < |es|;
            (Apply(s, es, Parse(line)).counts.version > s.counts.version) <==>
            (|| line in {"OK", "ERROR", "RDY", "RING", "NO CARRIER", "POWERED DOWN"}
             || "+CPIN: " <= line || "+QPINC: \"SC\"," <= line || "+CME ERROR: " <= line
             || Parse(line).call.Some? || known)
    ensures Apply(s, es, Parse(line)).counts.version >= s.counts.version
  {
    hide ListedCall, ReportedSetting, CString, AssignedName, Find;
    var m := Parse(line);
    assert m.cmeError.Some? <==> "+CME ERROR: " <= line;
    assert m.busy ==> line == "ERROR" || m.cmeError.Some?;
  }

  /** Submitting a command forgets all results, and asking for the call list also all calls. A timeout
      forgets the readiness, and if a command was pending, also the command, all results and whatever is
      in flight, but nothing that waits. A poll only makes the call list invalid. */
  lemma CommandsDo(d: Driver, command: string)
    ensures var s, r := d.status, AfterSubmit(d.status, command);
            && r.cmd == Progress(Some(command), false, false, None) && r.link == s.link && r.sim == s.sim
            && r.calls == (if command == "AT+CLCC" then Calls(false, None) else s.calls)
            && r.counts == s.counts.(version := s.counts.version + 1)
    ensures var s, r := d.status, Cancelled(d).status;
            && r.cmd == (if s.cmd.pending.Some? then Progress(None, false, false, None) else s.cmd)
            && r.link == s.link.(atOk := false) && r.sim == s.sim && r.calls == s.calls
            && Cancelled(d).entries == d.entries && Cancelled(d).reported == d.reported
    ensures CallListInvalidated(d) == d.(status := d.status.(calls := Calls(false, d.status.calls.current)))
    ensures var c, r := d.control, Cancelled(d).control;
            && r.pin == c.pin && r.ringCount == c.ringCount && r.outbound == c.outbound
            && forall k: Kind :: r.ops[k] == if d.status.cmd.pending.Some? && In(c.ops[k], Submitted) then Absent else c.ops[k]
  {
  }
}
