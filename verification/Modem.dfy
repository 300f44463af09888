/** A modem that answers in order and truthfully, connected to a driver
    (src/test/at_protocol/modem.h gives one such modem). */
module Modems {
  import opened Options
  import opened AtText
  import opened Qcfgs
  import opened Statuses
  import opened Controls
  import opened Drivers
  import opened Coherence

  // ---- how the modem reads a settings command ----

  datatype Request = Other | QueryOf(name: string) | AssignOf(name: string, value: string)

  /** Position of the first quote, or the length. */
  function QuoteAt(s: string): (n: nat)
    ensures n <= |s|
  {
    if s == [] || s[0] == '\"' then 0 else 1 + QuoteAt(s[1..])
  }

  /** Everything between the first two quotes is the name; nothing behind it is a query, a comma
      behind it starts the value to assign. */
  function RequestIn(command: string): Request {
    var head := AT_QCFG_PREFIX + "\"";
    if !(head <= command) then Other
    else
      var rest := command[|head|..];
      var n := QuoteAt(rest);
      if n == |rest| then Other
      else if n + 1 == |rest| then QueryOf(rest[..n])
      else if rest[n + 1] == ',' then AssignOf(rest[..n], rest[n + 2..])
      else Other
  }

  lemma {:induction false} QuoteAfterPlain(name: string, rest: string)
    requires PlainText(name)
    ensures QuoteAt(name + "\"" + rest) == |name|
  {
    var s := name + "\"" + rest;
    if name == [] {
      assert s[0] == '\"';
    } else {
      assert s[0] == name[0];
      assert s[1..] == name[1..] + "\"" + rest;
      QuoteAfterPlain(name[1..], rest);
    }
  }

  /** The modem reads the driver's queries and assignments as they are meant. */
  lemma RequestsAreUnderstood(name: string, value: string)
    requires PlainText(name)
    ensures RequestIn(QueryText(name)) == QueryOf(name)
    ensures RequestIn(AssignText(name, value)) == AssignOf(name, value)
  {
    var head := AT_QCFG_PREFIX + "\"";
    var q, a := name + "\"" + "", name + "\"" + ("," + value);
    QuoteAfterPlain(name, "");
    QuoteAfterPlain(name, "," + value);
    assert QueryText(name) == head + q && AssignText(name, value) == head + a;
    assert (head + q)[|head|..] == q && (head + a)[|head|..] == a;
    assert q[..|name|] == name && a[..|name|] == name && a[|name| + 2..] == value;
  }

  /** The driver reads its own settings commands as they are meant, too: only an assignment can
      mark an entry as modified, and only the entry it names. */
  lemma OwnCommandsAreRecognised(name: string, value: string)
    requires PlainText(name)
    ensures AssignedName(QueryText(name)) == None
    ensures AssignedName(AssignText(name, value))
         == if CommaElement(0, value, 0).GetOr([]) == [] then None else Some(name)
  {
    var q, a := QueryText(name), AssignText(name, value);
    assert AT_QCFG_PREFIX <= q && q[|AT_QCFG_PREFIX|..] == Quoted(name);
    assert AT_QCFG_PREFIX <= a && a[|AT_QCFG_PREFIX|..] == Quoted(name) + "," + value;
    assert Quoted(name) + ("," + value) == Quoted(name) + "," + value;
    hide CommaElement, PlainText, QueryText, AssignText, Quoted;
    QcfgElementOne(name, value);
    QuotedNameIsElementZero(name, "," + value);
  }

  /** A response in the modem's format reports the name and the value. */
  lemma ResponsesAreUnderstood(name: string, value: string)
    requires PlainText(name) && forall i :: 0 <= i < |value| ==> value[i] != '\0'
    ensures Parse(ResponseText(name, value)).setting == Some((name, value))
  {
    var line := ResponseText(name, value);
    var response := Quoted(name) + ("," + value);
    assert line == QCFG_RESPONSE + response;
    assert line[|QCFG_RESPONSE|..] == response;
    forall i | 0 <= i < |response| ensures response[i] != '\0' {
      if 0 < i <= |name| { assert response[i] == name[i - 1]; }
      else if i >= |name| + 3 { assert response[i] == value[i - |name| - 3]; }
    }
    CStringOfPlain(response);
    QuotedNameIsElementZero(name, "," + value);
    assert response[|name| + 3..] == value;
  }

  // ---- the modem ----

  /** Settings, commands not yet processed, and lines not yet read by the driver. */
  datatype Modem = Modem(settings: map<string, string>, inbox: seq<string>, outbox: seq<string>)

  predicate Ends(line: string) { Parse(line).endsCommand }

  /** Lines that neither end a command nor report a setting. */
  predicate Calm(line: string) { !Ends(line) && Parse(line).setting.None? && ProperError(line) }

  /** A reply ends with at most one final result, reports a setting only if asked to, and then as
      it is. A command may also go unanswered. */
  predicate Replies(settings: map<string, string>, command: string, reply: seq<string>) {
    && (forall i :: 0 <= i < |reply| - 1 ==> !Ends(reply[i]))
    && (reply != [] && Ends(reply[|reply| - 1]) ==> Parse(reply[|reply| - 1]).setting.None?)
    && (forall i :: 0 <= i < |reply| ==> ProperError(reply[i]))
    && (forall i :: 0 <= i < |reply| && Parse(reply[i]).setting.Some? ==>
          Reports(settings, command, Parse(reply[i]).setting.value))
  }

  predicate Reports(settings: map<string, string>, command: string, setting: (string, string)) {
    RequestIn(command) == QueryOf(setting.0) && setting.0 in settings && settings[setting.0] == setting.1
  }

  /** An assignment takes effect exactly if it is acknowledged. */
  function SettingsAfter(settings: map<string, string>, command: string, reply: seq<string>): map<string, string> {
    var r := RequestIn(command);
    if r.AssignOf? && reply != [] && reply[|reply| - 1] == "OK" then settings[r.name := r.value] else settings
  }

  // ---- driver and modem together ----

  datatype System = System(driver: Driver, modem: Modem)

  /** The driver reads some lines and makes a pass, the modem answers its oldest command or says
      something on its own, the driver is to poll the call list, or its command times out. */
  datatype Move = Drive(count: nat, cfg: Config)
                | Answer(reply: seq<string>)
                | Speak(line: string)
                | Poll
                | Expire

  /** A command that neither concerns a setting nor reboots the modem. */
  predicate Inert(command: string) {
    AssignedName(command).None? && RequestIn(command) == Other && command != AT_REBOOT
  }

  /** A ring command is inert, if there is one, and the modem is truthful. */
  predicate Honest(sys: System, move: Move) {
    match move
    case Drive(count, cfg) => count <= |sys.modem.outbox| && (cfg.ring.Some? ==> Inert(cfg.ring.value))
    case Answer(reply) => sys.modem.inbox != [] && Replies(sys.modem.settings, sys.modem.inbox[0], reply)
    case Speak(line) => Calm(line)
    case Poll => true
    case Expire => true
  }

  /** A pass would send a changed pin while the last pin command is unanswered. */
  predicate OvertakesPin(d: Driver, cfg: Config) {
    && d.status.cmd.pending.Some? && In(d.control.ops[SET_PIN], Submitted) && d.control.ops[REBOOT].Absent?
    && d.status.sim.cpin == Some("SIM PIN") && cfg.pin != "" && cfg.pin != d.control.pin
  }

  /** A pass would send another ring command while the last one is unanswered. */
  predicate OvertakesRing(d: Driver, cfg: Config) {
    && d.status.cmd.pending.Some? && In(d.control.ops[RING], Submitted) && d.control.ops[REBOOT].Absent?
    && cfg.ring.Some? && d.control.ringCount != d.status.counts.ring
  }

  predicate Overtakes(d: Driver, cfg: Config) { OvertakesPin(d, cfg) || OvertakesRing(d, cfg) }

  /** The driver, having heard the lines. */
  function Heard(d: Driver, lines: seq<string>): Driver {
    var heard := ApplyLines(d.status, d.entries, lines);
    d.(status := heard.0, entries := heard.1)
  }

  /** No command times out that is still to be answered, nor the reboot. */
  predicate SafeToExpire(sys: System) {
    var pending := sys.driver.status.cmd.pending;
    pending.Some? ==> pending.value != AT_REBOOT && sys.modem.inbox == [] && AllCalm(sys.modem.outbox)
  }

  predicate AllCalm(lines: seq<string>) {
    forall i :: 0 <= i < |lines| ==> Calm(lines[i])
  }

  /** Moreover, no command is sent while another one is still to be answered. */
  predicate Allowed(sys: System, move: Move) {
    && Honest(sys, move)
    && (move.Drive? ==> !Overtakes(Heard(sys.driver, sys.modem.outbox[..move.count]), move.cfg))
    && (move.Expire? ==> SafeToExpire(sys))
  }

  function SentBySystem(sys: System, move: Move): Option<Sent> {
    if move.Drive? && move.count <= |sys.modem.outbox|
    then SentIn(sys.driver, sys.modem.outbox[..move.count], move.cfg) else None
  }

  function Next(sys: System, move: Move): System {
    var m := sys.modem;
    match move
    case Drive(count, cfg) =>
      if count > |m.outbox| then sys
      else
        var sent := SentIn(sys.driver, m.outbox[..count], cfg);
        System(Applied(sys.driver, m.outbox[..count], cfg),
               m.(outbox := m.outbox[count..],
                  inbox := m.inbox + if sent.Some? then [sent.value.command] else []))
    case Answer(reply) =>
      if m.inbox == [] then sys
      else sys.(modem := Modem(SettingsAfter(m.settings, m.inbox[0], reply), m.inbox[1..], m.outbox + reply))
    case Speak(line) => sys.(modem := m.(outbox := m.outbox + [line]))
    case Poll => sys.(driver := CallListInvalidated(sys.driver))
    case Expire => sys.(driver := Cancelled(sys.driver))
  }

  function After(sys: System, moves: seq<Move>): System
    decreases |moves|
  {
    if moves == [] then sys else After(Next(sys, moves[0]), moves[1..])
  }

  predicate AllHonest(sys: System, moves: seq<Move>)
    decreases |moves|
  {
    moves != [] ==> Honest(sys, moves[0]) && AllHonest(Next(sys, moves[0]), moves[1..])
  }

  predicate AllAllowed(sys: System, moves: seq<Move>)
    decreases |moves|
  {
    moves != [] ==> Allowed(sys, moves[0]) && AllAllowed(Next(sys, moves[0]), moves[1..])
  }

  /** Commands sent over a whole run. */
  function CommandsSent(sys: System, moves: seq<Move>): seq<string>
    decreases |moves|
  {
    if moves == [] then []
    else
      var sent := SentBySystem(sys, moves[0]);
      (if sent.Some? then [sent.value.command] else []) + CommandsSent(Next(sys, moves[0]), moves[1..])
  }

  function Count(commands: seq<string>, command: string): nat {
    if commands == [] then 0 else (if commands[0] == command then 1 else 0) + Count(commands[1..], command)
  }
}
