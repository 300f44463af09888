/** Operations that the driver wants the modem to carry out
    (src/driver/modem/at_protocol/control.h). */
module Controls {
  import opened Options
  import opened AtText
  import opened Qcfgs
  import opened Statuses

  // ---- configuration ----

  datatype CallNode = CallNode(number: string, state: Option<string>)

  datatype Config = Config(pin: string, power: string, call: Option<CallNode>, ring: Option<string>)

  predicate Rejected(call: Option<CallNode>) {
    call.Some? && call.value.state == Some("rejected")
  }

  predicate Accepted(call: CallNode) {
    call.state.None? || call.state == Some("accepted")
  }

  // ---- operation slots ----

  /** Slots are numbered by priority. */
  type Kind = k: nat | k < SLOTS

  const SLOTS: nat := 14
  const CHECK_READY: Kind := 0
  const DISABLE_ECHO: Kind := 1
  const POWER_DOWN: Kind := 2
  const RING: Kind := 3
  const SET_PIN: Kind := 4
  const REQUEST_PIN_STATE: Kind := 5
  const REQUEST_PIN_COUNT: Kind := 6
  const REBOOT: Kind := 7
  const QUERY_QCFG: Kind := 8
  const ASSIGN_QCFG: Kind := 9
  const HANG_UP: Kind := 10
  const REQUEST_CALL_LIST: Kind := 11
  const INITIATE_CALL: Kind := 12
  const ACCEPT_CALL: Kind := 13

  /** The source declares a further state TIMED_OUT, which nothing ever assigns. */
  datatype OpState = Pending | Submitted

  /** An operation, with the number, name, pin or value it was constructed with. */
  datatype Slot = Absent | Op(state: OpState, arg: string, value: string)

  const NO_OPERATIONS := [Absent, Absent, Absent, Absent, Absent, Absent, Absent,
                                Absent, Absent, Absent, Absent, Absent, Absent, Absent]

  type Slots = s: seq<Slot> | |s| == SLOTS witness NO_OPERATIONS

  function CommandOf(k: Kind, op: Slot): string
    requires op.Op?
  {
    if k == CHECK_READY then AT_CHECK_READY
    else if k == DISABLE_ECHO then AT_DISABLE_ECHO
    else if k == POWER_DOWN then AT_POWER_DOWN
    else if k == RING then op.arg
    else if k == SET_PIN then "AT+CPIN=" + op.arg
    else if k == REQUEST_PIN_STATE then "AT+CPIN?"
    else if k == REQUEST_PIN_COUNT then "AT+QPINC?"
    else if k == REBOOT then AT_REBOOT
    else if k == QUERY_QCFG then QueryText(op.arg)
    else if k == ASSIGN_QCFG then AssignText(op.arg, op.value)
    else if k == HANG_UP then AT_HANG_UP
    else if k == REQUEST_CALL_LIST then AT_REQUEST_CALL_LIST
    else if k == INITIATE_CALL then "ATD" + op.arg + ";"
    else AT_ACCEPT_CALL
  }

  predicate In(op: Slot, state: OpState) { op.Op? && op.state == state }

  /** The highest-priority operation in the given state, or the number of slots. */
  function First(ops: seq<Slot>, state: OpState): (k: nat)
    ensures k <= |ops| && (k < |ops| ==> In(ops[k], state))
    ensures forall i :: 0 <= i < k ==> !In(ops[i], state)
  {
    if ops == [] || In(ops[0], state) then 0 else 1 + First(ops[1..], state)
  }

  predicate InFlight(ops: seq<Slot>) { First(ops, Submitted) < |ops| }

  function New(arg: string, value: string): Slot { Op(Pending, arg, value) }

  /** Construct the operation unless it exists. */
  function Ensure(op: Slot, arg: string): Slot { if op.Op? then op else New(arg, "") }

  /** Genode's `Constructible::conditional`: construct or destruct according to the condition,
      without touching an operation that is to be kept. */
  function Conditional(op: Slot, condition: bool): Slot {
    if condition then Ensure(op, "") else Absent
  }

  datatype Outbound = Outbound(call: Call, noCarrierCount: nat)

  datatype Control = Control(ops: Slots, pin: string, ringCount: nat, outbound: Option<Outbound>)

  const IDLE := Control(NO_OPERATIONS, "", 0, None)

  // ---- what the steps of a pass compute ----

  function Completed(ok: bool, ops: Slots): Slots {
    var k := First(ops, Submitted);
    if ok && k < SLOTS then ops[k := Absent] else ops
  }

  function AfterCancel(ops: seq<Slot>): (r: seq<Slot>)
    ensures |r| == |ops|
    ensures forall i :: 0 <= i < |ops| ==> r[i] == if In(ops[i], Submitted) then Absent else ops[i]
  {
    if ops == [] then []
    else [if In(ops[0], Submitted) then Absent else ops[0]] + AfterCancel(ops[1..])
  }

  function RetryFailed(op: Slot, failed: bool): Slot {
    if In(op, Submitted) && failed then Absent else op
  }

  function Query(op: Slot, es: seq<Entry>): Slot {
    var e := FirstIn(es, Unknown);
    if op.Absent? && e.Some? then New(e.value.name, "") else op
  }

  function Assign(op: Slot, es: seq<Entry>): Slot {
    var e := FirstIn(es, Mismatch);
    if op.Absent? && e.Some? then New(e.value.name, e.value.value) else op
  }

  /** The pass starts the reboot: everything else is dropped. */
  predicate StartsReboot(ops: Slots, es: seq<Entry>) {
    ops[REBOOT].Absent? && RebootNeeded(es)
  }

  function QcfgApplied(c: Control, es: seq<Entry>, error: bool): Control {
    if StartsReboot(c.ops, es) then c.(ops := NO_OPERATIONS[REBOOT := New("", "")], pin := "")
    else c.(ops := c.ops[QUERY_QCFG := Query(RetryFailed(c.ops[QUERY_QCFG], error), es)]
                        [ASSIGN_QCFG := Assign(c.ops[ASSIGN_QCFG], es)])
  }

  function PinApplied(c: Control, pin: string, cmeError: bool, cpin: Option<string>): Control {
    var ops := c.ops[REQUEST_PIN_STATE := RetryFailed(c.ops[REQUEST_PIN_STATE], cmeError)];
    if In(ops[SET_PIN], Submitted) && cmeError then
      c.(ops := ops[SET_PIN := Absent][REQUEST_PIN_COUNT := Ensure(ops[REQUEST_PIN_COUNT], "")])
    else if cpin == None then
      c.(ops := ops[REQUEST_PIN_STATE := Ensure(ops[REQUEST_PIN_STATE], "")])
    else if cpin.value == "SIM PIN" && pin != "" && pin != c.pin then
      c.(ops := ops[SET_PIN := New(pin, "")], pin := pin)
    else c.(ops := ops)
  }

  function PowerApplied(c: Control, power: string, error: bool, poweredDown: bool): Control {
    var op := RetryFailed(c.ops[POWER_DOWN], error);
    c.(ops := c.ops[POWER_DOWN := if power == "off" && !poweredDown then Ensure(op, "") else op])
  }

  function HangUpApplied(c: Control, call: Option<CallNode>, current: Option<Call>): Control {
    if c.ops[HANG_UP].Op? then c
    else
      var cancelled := c.outbound.Some? && (call.None? || Rejected(call));
      var refused := current.Some? && Rejected(call) && (current.value.stat == Incoming || current.value.stat == Active);
      c.(ops := if cancelled || refused then c.ops[HANG_UP := New("", "")] else c.ops,
         outbound := if cancelled then None else c.outbound)
  }

  predicate ReadyForTelephony(sim: Sim) { sim.cpin == Some("READY") }

  function CallListApplied(c: Control, ready: bool, upToDate: bool): Control {
    if !ready then c
    else c.(ops := c.ops[REQUEST_CALL_LIST := Conditional(c.ops[REQUEST_CALL_LIST], !upToDate)])
  }

  /** Note about the outbound call, once the call list and the configured number are considered. */
  function OutboundKept(outbound: Option<Outbound>, current: Option<Call>, number: string): Option<Outbound> {
    var o := if outbound.Some? && current.Some? then Some(outbound.value.(call := current.value)) else outbound;
    if o.Some? && o.value.call.number != number then None else o
  }

  function CallApplied(c: Control, node: CallNode, ready: bool, calls: Calls, noCarrier: nat): Control {
    if !ready || !calls.upToDate then c
    else
      var accept := calls.current.Some? && calls.current.value.stat == Incoming && Accepted(node);
      var ops := if accept then c.ops[ACCEPT_CALL := Ensure(c.ops[ACCEPT_CALL], "")] else c.ops;
      var outbound := OutboundKept(c.outbound, calls.current, node.number);
      if calls.current.None? && Accepted(node) && outbound.None? && ops[INITIATE_CALL].Absent?
      then c.(ops := ops[INITIATE_CALL := New(node.number, "")],
              outbound := Some(Outbound(Call(node.number, Dialing), noCarrier)))
      else c.(ops := ops, outbound := outbound)
  }

  function RingApplied(c: Control, command: string, ringCount: nat): Control {
    if c.ringCount == ringCount then c
    else c.(ops := c.ops[RING := New(command, "")], ringCount := ringCount)
  }

  /** `_apply_config`: the operations asked for by the configuration. */
  function Configured(c: Control, s: Status, es: seq<Entry>, cfg: Config): Control {
    if c.ops[REBOOT].Op? || !s.link.rdy then c
    else
      var echo := c.(ops := c.ops[DISABLE_ECHO :=
                     Conditional(c.ops[DISABLE_ECHO], !s.link.echoDisabled && s.link.atOk)]);
      if !s.link.echoDisabled then echo
      else Demanded(echo, s, es, cfg)
  }

  /** Settings, SIM pin and power. */
  function Maintained(c: Control, s: Status, es: seq<Entry>, cfg: Config): Control {
    var c1 := QcfgApplied(c, es, s.cmd.error);
    var c2 := PinApplied(c1, cfg.pin, s.cmd.cmeError.Some?, s.sim.cpin);
    PowerApplied(c2, cfg.power, s.cmd.error, s.link.poweredDown)
  }

  /** Call list, calls and ring tones. */
  function Telephony(c: Control, s: Status, cfg: Config): Control {
    var c1 := HangUpApplied(c, cfg.call, s.calls.current);
    var c2 := CallListApplied(c1, ReadyForTelephony(s.sim), s.calls.upToDate);
    var c3 := if cfg.call.None? then c2
              else CallApplied(c2, cfg.call.value, ReadyForTelephony(s.sim), s.calls, s.counts.noCarrier);
    if cfg.ring.None? then c3 else RingApplied(c3, cfg.ring.value, s.counts.ring)
  }

  function Demanded(c: Control, s: Status, es: seq<Entry>, cfg: Config): Control {
    Telephony(Maintained(c, s, es, cfg), s, cfg)
  }

  /** The operations at the moment the pass looks for one to submit. */
  function Prepared(c: Control, s: Status, es: seq<Entry>, cfg: Config): Control {
    var ops := Completed(s.cmd.ok, c.ops);
    Configured(c.(ops := ops[CHECK_READY := Conditional(ops[CHECK_READY], !s.link.atOk)]), s, es, cfg)
  }

  datatype Sent = Sent(kind: Kind, command: string)

  /** The operation that gets submitted: the first pending one if none is in flight. */
  function Chosen(ops: Slots): Option<Kind> {
    if InFlight(ops) || First(ops, Pending) == SLOTS then None else Some(First(ops, Pending))
  }

  function Launch(c: Control): Control {
    match Chosen(c.ops)
    case None => c
    case Some(k) => c.(ops := c.ops[k := c.ops[k].(state := Submitted)])
  }

  function SentBy(c: Control): Option<Sent> {
    match Chosen(c.ops)
    case None => None
    case Some(k) => Some(Sent(k, CommandOf(k, c.ops[k])))
  }

  // ---- the classes ----

  class CommandChannel {
    var sent: seq<string>

    constructor ()
      ensures sent == []
    {
      sent := [];
    }

    method SendCommandToModem(command: string)
      modifies this
      ensures sent == old(sent) + [command]
    {
      sent := sent + [command];
    }
  }

  /** Passes a command on and lets the status know about it (driver.h). */
  class CommandFilter {
    const channel: CommandChannel
    const status: StatusObject

    constructor (channel: CommandChannel, status: StatusObject)
      ensures this.channel == channel && this.status == status
    {
      this.channel, this.status := channel, status;
    }

    method SendCommandToModem(command: string)
      modifies channel, status
      ensures channel.sent == old(channel.sent) + [command]
      ensures status.Value() == AfterSubmit(old(status.Value()), command)
    {
      channel.SendCommandToModem(command);
      status.CommandSubmitted(command);
    }
  }

  lemma FirstSkips(ops: seq<Slot>, state: OpState, k: nat)
    requires k < |ops| && First(ops, state) >= k
    ensures In(ops[k], state) ==> First(ops, state) == k
    ensures !In(ops[k], state) ==> First(ops, state) >= k + 1
  {
  }

  class ControlObject {
    const status: StatusObject

    var ops: Slots
    var currentPin: string
    var currentRingCount: nat
    var outbound: Option<Outbound>

    function Value(): Control
      reads this
    {
      Control(ops, currentPin, currentRingCount, outbound)
    }

    constructor (status: StatusObject)
      ensures this.status == status && Value() == IDLE
    {
      this.status := status;
      ops, currentPin, currentRingCount, outbound := NO_OPERATIONS, "", 0, None;
    }

    method CompleteOperation()
      modifies this`ops
      ensures ops == Completed(status.cmd.ok, old(ops))
    {
      if !status.cmd.ok {
        return;
      }
      for k := 0 to SLOTS
        invariant ops == old(ops) && First(ops, Submitted) >= k
      {
        FirstSkips(ops, Submitted, k);
        if In(ops[k], Submitted) {
          ops := ops[k := Absent];
          return;
        }
      }
    }

    method AnyOperationInFlight() returns (r: bool)
      ensures r == InFlight(ops)
    {
      for k := 0 to SLOTS
        invariant First(ops, Submitted) >= k
      {
        FirstSkips(ops, Submitted, k);
        if In(ops[k], Submitted) {
          return true;
        }
      }
      return false;
    }

    method SubmitOnePendingOperation(commandChannel: CommandFilter)
      requires commandChannel.status == status
      requires !InFlight(ops)
      modifies this`ops, commandChannel.channel, status
      ensures Value() == Launch(old(Value()))
      ensures match SentBy(old(Value()))
              case None => commandChannel.channel.sent == old(commandChannel.channel.sent)
                           && status.Value() == old(status.Value())
              case Some(s) => commandChannel.channel.sent == old(commandChannel.channel.sent) + [s.command]
                              && status.Value() == AfterSubmit(old(status.Value()), s.command)
    {
      for k := 0 to SLOTS
        invariant ops == old(ops) && First(ops, Pending) >= k
        invariant commandChannel.channel.sent == old(commandChannel.channel.sent)
        invariant status.Value() == old(status.Value())
      {
        FirstSkips(ops, Pending, k);
        if In(ops[k], Pending) {
          commandChannel.SendCommandToModem(CommandOf(k, ops[k]));
          ops := ops[k := ops[k].(state := Submitted)];
          return;
        }
      }
    }

    method CancelAllOperations()
      modifies this`ops
      ensures ops == NO_OPERATIONS
    {
      for k := 0 to SLOTS
        invariant forall i :: 0 <= i < k ==> ops[i] == Absent
      {
        ops := ops[k := Absent];
      }
    }

    /** `cancel_command`: drop whatever is in flight. */
    method CancelCommand()
      modifies this`ops
      ensures ops == AfterCancel(old(ops))
    {
      for k := 0 to SLOTS
        invariant forall i :: 0 <= i < SLOTS ==>
          ops[i] == if i < k && In(old(ops)[i], Submitted) then Absent else old(ops)[i]
      {
        if In(ops[k], Submitted) {
          ops := ops[k := Absent];
        }
      }
    }

    /** Ask for an entry whose setting is unknown, again if the last query failed. */
    method ApplyQuery()
      modifies this`ops
      ensures ops == old(ops)[QUERY_QCFG := Query(RetryFailed(old(ops)[QUERY_QCFG], status.cmd.error),
                                                  status.qcfg.entries)]
    {
      var op := RetryFailed(ops[QUERY_QCFG], status.cmd.error);
      if op.Absent? {
        var e := status.qcfg.AnyEntryInState(Unknown);
        if e.Some? {
          op := New(e.value.name, "");
        }
      }
      ops := ops[QUERY_QCFG := op];
    }

    /** Give an entry whose setting differs the wanted value. */
    method ApplyAssign()
      modifies this`ops
      ensures ops == old(ops)[ASSIGN_QCFG := Assign(old(ops)[ASSIGN_QCFG], status.qcfg.entries)]
    {
      var op := ops[ASSIGN_QCFG];
      if op.Absent? {
        var e := status.qcfg.AnyEntryInState(Mismatch);
        if e.Some? {
          op := New(e.value.name, e.value.value);
        }
      }
      ops := ops[ASSIGN_QCFG := op];
    }

    method ApplyQcfg()
      modifies this`ops, this`currentPin
      ensures Value() == QcfgApplied(old(Value()), status.qcfg.entries, status.cmd.error)
    {
      ApplyQuery();
      ApplyAssign();
      var rebootNeeded := status.qcfg.NeedsReboot();
      if ops[REBOOT].Absent? && rebootNeeded {
        CancelAllOperations();
        ops := ops[REBOOT := New("", "")];
        currentPin := "";
      }
    }

    method ApplyPin(pin: string)
      modifies this`ops, this`currentPin
      ensures Value() == PinApplied(old(Value()), pin, status.cmd.cmeError.Some?, status.sim.cpin)
    {
      if In(ops[REQUEST_PIN_STATE], Submitted) && status.cmd.cmeError.Some? {
        ops := ops[REQUEST_PIN_STATE := Absent];
      }
      if In(ops[SET_PIN], Submitted) && status.cmd.cmeError.Some? {
        ops := ops[SET_PIN := Absent];
        if ops[REQUEST_PIN_COUNT].Absent? {
          ops := ops[REQUEST_PIN_COUNT := New("", "")];
        }
        return;
      }
      if status.sim.cpin == None {
        if ops[REQUEST_PIN_STATE].Absent? {
          ops := ops[REQUEST_PIN_STATE := New("", "")];
        }
        return;
      }
      if status.sim.cpin.value != "SIM PIN" || pin == "" || pin == currentPin {
        return;
      }
      currentPin := pin;
      ops := ops[SET_PIN := New(pin, "")];
    }

    method ApplyPower(power: string)
      modifies this`ops
      ensures Value() == PowerApplied(old(Value()), power, status.cmd.error, status.link.poweredDown)
    {
      if In(ops[POWER_DOWN], Submitted) && status.cmd.error {
        ops := ops[POWER_DOWN := Absent];
      }
      if power == "off" && !status.link.poweredDown && ops[POWER_DOWN].Absent? {
        ops := ops[POWER_DOWN := New("", "")];
      }
    }

    method ApplyHangUp(call: Option<CallNode>)
      modifies this`ops, this`outbound
      ensures Value() == HangUpApplied(old(Value()), call, status.calls.current)
    {
      if ops[HANG_UP].Op? {
        return;
      }
      if outbound.Some? && (call.None? || Rejected(call)) {
        outbound := None;
        ops := ops[HANG_UP := New("", "")];
      }
      if status.calls.current.Some? && Rejected(call) {
        var stat := status.calls.current.value.stat;
        if stat == Incoming || stat == Active {
          ops := ops[HANG_UP := New("", "")];
        }
      }
    }

    method KeepCallListUpToDate()
      modifies this`ops
      ensures Value() == CallListApplied(old(Value()), ReadyForTelephony(status.sim), status.calls.upToDate)
    {
      if !ReadyForTelephony(status.sim) {
        return;
      }
      if status.calls.upToDate {
        ops := ops[REQUEST_CALL_LIST := Absent];
        return;
      }
      if ops[REQUEST_CALL_LIST].Absent? {
        ops := ops[REQUEST_CALL_LIST := New("", "")];
      }
    }

    /** An outbound call to the number was ended by the network. */
    predicate RejectedByNetwork(number: string)
      reads this, status
    {
      outbound.Some? && outbound.value.call.number == number
      && outbound.value.noCarrierCount != status.counts.noCarrier
    }

    method ApplyCall(call: CallNode)
      modifies this`ops, this`outbound
      ensures Value() == CallApplied(old(Value()), call, ReadyForTelephony(status.sim), status.calls,
                                     status.counts.noCarrier)
    {
      if !ReadyForTelephony(status.sim) || !status.calls.upToDate {
        return;
      }
      var accepted := Accepted(call);

      if status.calls.current.Some? {
        if outbound.Some? {
          outbound := Some(outbound.value.(call := status.calls.current.value));
        }
        if status.calls.current.value.stat == Incoming && accepted && ops[ACCEPT_CALL].Absent? {
          ops := ops[ACCEPT_CALL := New("", "")];
        }
      }
      if outbound.Some? && outbound.value.call.number != call.number {
        outbound := None;
      }
      var idle := status.calls.current.None?;
      var isOutbound := outbound.Some? && outbound.value.call.number == call.number;
      if idle && accepted && !RejectedByNetwork(call.number) && !isOutbound {
        if ops[INITIATE_CALL].Absent? {
          ops := ops[INITIATE_CALL := New(call.number, "")];
          outbound := Some(Outbound(Call(call.number, Dialing), status.counts.noCarrier));
        }
      }
    }

    method ApplyRing(command: string)
      modifies this`ops, this`currentRingCount
      ensures Value() == RingApplied(old(Value()), command, status.counts.ring)
    {
      if currentRingCount != status.counts.ring {
        currentRingCount := status.counts.ring;
        ops := ops[RING := New(command, "")];
      }
    }

    method ApplyConfigOperations(cfg: Config)
      modifies this`ops, this`currentPin, this`currentRingCount, this`outbound
      ensures Value() == Configured(old(Value()), status.Value(), status.qcfg.entries, cfg)
    {
      if ops[REBOOT].Op? || !status.link.rdy {
        return;
      }
      ops := ops[DISABLE_ECHO := Conditional(ops[DISABLE_ECHO],
                                             !status.link.echoDisabled && status.link.atOk)];
      if !status.link.echoDisabled {
        return;
      }
      ApplyQcfg();
      ApplyPin(cfg.pin);
      ApplyPower(cfg.power);
      ApplyHangUp(cfg.call);
      KeepCallListUpToDate();
      if cfg.call.Some? {
        ApplyCall(cfg.call.value);
      }
      if cfg.ring.Some? {
        ApplyRing(cfg.ring.value);
      }
    }

    method ApplyConfig(cfg: Config, commandChannel: CommandFilter)
      requires commandChannel.status == status
      modifies this`ops, this`currentPin, this`currentRingCount, this`outbound,
               commandChannel.channel, status
      ensures var prepared := Prepared(old(Value()), old(status.Value()), old(status.qcfg.entries), cfg);
              && Value() == Launch(prepared)
              && (match SentBy(prepared)
                  case None => commandChannel.channel.sent == old(commandChannel.channel.sent)
                               && status.Value() == old(status.Value())
                  case Some(s) => commandChannel.channel.sent == old(commandChannel.channel.sent) + [s.command]
                                  && status.Value() == AfterSubmit(old(status.Value()), s.command))
    {
      CompleteOperation();

      ops := ops[CHECK_READY := Conditional(ops[CHECK_READY], !status.link.atOk)];

      ApplyConfigOperations(cfg);

      var inFlight := AnyOperationInFlight();
      if !inFlight {
        SubmitOnePendingOperation(commandChannel);
      }
    }
  }
}
