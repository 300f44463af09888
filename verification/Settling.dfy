/** Repeating a pass without new lines sends at most one command, and then changes nothing
    (src/driver/modem/at_protocol/control.h:497-548). */
module Settling {
  import opened Options
  import opened AtText
  import opened Qcfgs
  import opened Statuses
  import opened Controls
  import opened Drivers
  import opened Coherence

  /** `b` differs from `a` at most in the given slots. */
  predicate OnlyTouches(a: Slots, b: Slots, touched: set<Kind>) {
    forall k: Kind :: k !in touched ==> a[k] == b[k]
  }

  // ---- when a step has nothing left to do ----

  predicate QcfgDone(c: Control, es: seq<Entry>, error: bool) {
    && !(In(c.ops[QUERY_QCFG], Submitted) && error)
    && (c.ops[QUERY_QCFG].Op? || Lacks(es, Unknown))
    && (c.ops[ASSIGN_QCFG].Op? || Lacks(es, Mismatch))
    && !StartsReboot(c.ops, es)
  }

  predicate PinDone(c: Control, pin: string, cmeError: bool, cpin: Option<string>) {
    && !(In(c.ops[REQUEST_PIN_STATE], Submitted) && cmeError)
    && !(In(c.ops[SET_PIN], Submitted) && cmeError)
    && (cpin.None? ==> c.ops[REQUEST_PIN_STATE].Op?)
    && (cpin == Some("SIM PIN") && pin != "" ==> pin == c.pin)
  }

  predicate PowerDone(c: Control, power: string, error: bool, poweredDown: bool) {
    && !(In(c.ops[POWER_DOWN], Submitted) && error)
    && (power == "off" && !poweredDown ==> c.ops[POWER_DOWN].Op?)
  }

  predicate HangUpDone(c: Control, call: Option<CallNode>, current: Option<Call>) {
    c.ops[HANG_UP].Op?
    || (!(c.outbound.Some? && (call.None? || Rejected(call)))
        && !(current.Some? && Rejected(call) && (current.value.stat == Incoming || current.value.stat == Active)))
  }

  predicate CallListDone(c: Control, ready: bool, upToDate: bool) {
    ready ==> c.ops[REQUEST_CALL_LIST].Op? == !upToDate
  }

  predicate CallDone(c: Control, node: CallNode, ready: bool, calls: Calls) {
    ready && calls.upToDate ==>
      && (calls.current.Some? && calls.current.value.stat == Incoming && Accepted(node)
          ==> c.ops[ACCEPT_CALL].Op?)
      && OutboundKept(c.outbound, calls.current, node.number) == c.outbound
      && !(calls.current.None? && Accepted(node) && c.outbound.None? && c.ops[INITIATE_CALL].Absent?)
  }

  // ---- each step gets done, and touches only its own slots ----

  lemma QcfgSettles(c: Control, es: seq<Entry>, error: bool)
    requires !StartsReboot(c.ops, es)
    ensures var r := QcfgApplied(c, es, error);
            && QcfgDone(r, es, error)
            && OnlyTouches(c.ops, r.ops, {QUERY_QCFG, ASSIGN_QCFG})
            && r.pin == c.pin && r.ringCount == c.ringCount && r.outbound == c.outbound
  {
  }

  lemma PinSettles(c: Control, pin: string, cmeError: bool, cpin: Option<string>)
    ensures var r := PinApplied(c, pin, cmeError, cpin);
            && (!(In(c.ops[SET_PIN], Submitted) && cmeError) ==> PinDone(r, pin, cmeError, cpin))
            && (r.ops[SET_PIN].Op? && cpin == Some("SIM PIN") && pin != "" ==> pin == r.pin)
            && (In(c.ops[SET_PIN], Submitted) && cmeError
                ==> r.ops[REQUEST_PIN_COUNT].Op? && r.ops[SET_PIN].Absent?)
            && OnlyTouches(c.ops, r.ops, {SET_PIN, REQUEST_PIN_STATE, REQUEST_PIN_COUNT})
            && r.ringCount == c.ringCount && r.outbound == c.outbound
  {
  }

  lemma PowerSettles(c: Control, power: string, error: bool, poweredDown: bool)
    ensures var r := PowerApplied(c, power, error, poweredDown);
            && PowerDone(r, power, error, poweredDown)
            && OnlyTouches(c.ops, r.ops, {POWER_DOWN}) && r == c.(ops := r.ops)
  {
  }

  lemma HangUpSettles(c: Control, call: Option<CallNode>, current: Option<Call>)
    ensures var r := HangUpApplied(c, call, current);
            && HangUpDone(r, call, current)
            && OnlyTouches(c.ops, r.ops, {HANG_UP}) && r == c.(ops := r.ops, outbound := r.outbound)
  {
  }

  lemma CallListSettles(c: Control, ready: bool, upToDate: bool)
    ensures var r := CallListApplied(c, ready, upToDate);
            && CallListDone(r, ready, upToDate)
            && OnlyTouches(c.ops, r.ops, {REQUEST_CALL_LIST}) && r == c.(ops := r.ops)
  {
  }

  lemma CallSettles(c: Control, node: CallNode, ready: bool, calls: Calls, noCarrier: nat)
    ensures var r := CallApplied(c, node, ready, calls, noCarrier);
            && CallDone(r, node, ready, calls)
            && (HangUpDone(c, Some(node), calls.current) ==> HangUpDone(r, Some(node), calls.current))
            && OnlyTouches(c.ops, r.ops, {ACCEPT_CALL, INITIATE_CALL})
            && r == c.(ops := r.ops, outbound := r.outbound)
  {
  }

  lemma RingSettles(c: Control, command: string, ringCount: nat)
    ensures var r := RingApplied(c, command, ringCount);
            && r.ringCount == ringCount
            && OnlyTouches(c.ops, r.ops, {RING})
            && r == c.(ops := r.ops, ringCount := ringCount)
  {
  }

  predicate PinRefused(c: Control, s: Status) {
    In(c.ops[SET_PIN], Submitted) && s.cmd.cmeError.Some?
  }

  predicate MaintenanceDone(c: Control, s: Status, es: seq<Entry>, cfg: Config) {
    && QcfgDone(c, es, s.cmd.error)
    && PinDone(c, cfg.pin, s.cmd.cmeError.Some?, s.sim.cpin)
    && PowerDone(c, cfg.power, s.cmd.error, s.link.poweredDown)
  }

  predicate TelephonyDone(c: Control, s: Status, cfg: Config) {
    && HangUpDone(c, cfg.call, s.calls.current)
    && CallListDone(c, ReadyForTelephony(s.sim), s.calls.upToDate)
    && (cfg.call.Some? ==> CallDone(c, cfg.call.value, ReadyForTelephony(s.sim), s.calls))
    && (cfg.ring.Some? ==> c.ringCount == s.counts.ring)
  }

  const MAINTENANCE: set<Kind> := {QUERY_QCFG, ASSIGN_QCFG, SET_PIN, REQUEST_PIN_STATE, REQUEST_PIN_COUNT, POWER_DOWN}

  const TELEPHONY: set<Kind> := {HANG_UP, REQUEST_CALL_LIST, ACCEPT_CALL, INITIATE_CALL, RING}

  /** Unless the pass starts a reboot, the maintenance steps get done, apart from the pin steps
      right after the pin was refused. */
  lemma MaintenanceSettles(c: Control, s: Status, es: seq<Entry>, cfg: Config)
    requires !StartsReboot(c.ops, es)
    ensures var r := Maintained(c, s, es, cfg);
            && (!PinRefused(c, s) ==> MaintenanceDone(r, s, es, cfg))
            && (r.ops[SET_PIN].Op? && s.sim.cpin == Some("SIM PIN") && cfg.pin != "" ==> cfg.pin == r.pin)
            && (PinRefused(c, s) ==> r.ops[REQUEST_PIN_COUNT].Op? && r.ops[SET_PIN].Absent?)
            && OnlyTouches(c.ops, r.ops, MAINTENANCE)
            && r.ringCount == c.ringCount && r.outbound == c.outbound
  {
    hide QcfgApplied, PinApplied, PowerApplied, RebootNeeded, Lacks;
    var c1 := QcfgApplied(c, es, s.cmd.error);
    QcfgSettles(c, es, s.cmd.error);
    var c2 := PinApplied(c1, cfg.pin, s.cmd.cmeError.Some?, s.sim.cpin);
    PinSettles(c1, cfg.pin, s.cmd.cmeError.Some?, s.sim.cpin);
    PowerSettles(c2, cfg.power, s.cmd.error, s.link.poweredDown);
  }

  lemma TelephonySettles(c: Control, s: Status, cfg: Config)
    ensures var r := Telephony(c, s, cfg);
            && TelephonyDone(r, s, cfg)
            && OnlyTouches(c.ops, r.ops, TELEPHONY) && r.pin == c.pin
  {
    hide HangUpApplied, CallListApplied, CallApplied, RingApplied, OutboundKept;
    var c1 := HangUpApplied(c, cfg.call, s.calls.current);
    HangUpSettles(c, cfg.call, s.calls.current);
    var c2 := CallListApplied(c1, ReadyForTelephony(s.sim), s.calls.upToDate);
    CallListSettles(c1, ReadyForTelephony(s.sim), s.calls.upToDate);
    var c3 := c2;
    if cfg.call.Some? {
      c3 := CallApplied(c2, cfg.call.value, ReadyForTelephony(s.sim), s.calls, s.counts.noCarrier);
      CallSettles(c2, cfg.call.value, ReadyForTelephony(s.sim), s.calls, s.counts.noCarrier);
    }
    if cfg.ring.Some? {
      RingSettles(c3, cfg.ring.value, s.counts.ring);
    }
  }

  lemma DemandSettles(c: Control, s: Status, es: seq<Entry>, cfg: Config)
    requires !StartsReboot(c.ops, es)
    ensures var r := Demanded(c, s, es, cfg);
            && (!PinRefused(c, s) ==> MaintenanceDone(r, s, es, cfg))
            && (r.ops[SET_PIN].Op? && s.sim.cpin == Some("SIM PIN") && cfg.pin != "" ==> cfg.pin == r.pin)
            && (PinRefused(c, s) ==> r.ops[REQUEST_PIN_COUNT].Op? && r.ops[SET_PIN].Absent?)
            && TelephonyDone(r, s, cfg)
            && OnlyTouches(c.ops, r.ops, MAINTENANCE + TELEPHONY)
  {
    hide Maintained, Telephony, TelephonyDone, RebootNeeded, Lacks;
    MaintenanceSettles(c, s, es, cfg);
    TelephonySettles(Maintained(c, s, es, cfg), s, cfg);
  }

  // ---- what is done stays done ----

  lemma DoneIsFixed(c: Control, s: Status, es: seq<Entry>, cfg: Config)
    requires MaintenanceDone(c, s, es, cfg) && TelephonyDone(c, s, cfg)
    ensures Demanded(c, s, es, cfg) == c
  {
    assert QcfgApplied(c, es, s.cmd.error) == c by { QcfgFixed(c, es, s.cmd.error); }
    assert PinApplied(c, cfg.pin, s.cmd.cmeError.Some?, s.sim.cpin) == c by {
      PinFixed(c, cfg.pin, s.cmd.cmeError.Some?, s.sim.cpin);
    }
    assert PowerApplied(c, cfg.power, s.cmd.error, s.link.poweredDown) == c by {
      PowerFixed(c, cfg.power, s.cmd.error, s.link.poweredDown);
    }
    assert CallListApplied(c, ReadyForTelephony(s.sim), s.calls.upToDate) == c by {
      CallListFixed(c, ReadyForTelephony(s.sim), s.calls.upToDate);
    }
    if cfg.call.Some? {
      CallFixed(c, cfg.call.value, ReadyForTelephony(s.sim), s.calls, s.counts.noCarrier);
    }
  }

  lemma QcfgFixed(c: Control, es: seq<Entry>, error: bool)
    requires QcfgDone(c, es, error)
    ensures QcfgApplied(c, es, error) == c
  {
    assert c.ops[QUERY_QCFG := c.ops[QUERY_QCFG]][ASSIGN_QCFG := c.ops[ASSIGN_QCFG]] == c.ops;
  }

  lemma PinFixed(c: Control, pin: string, cmeError: bool, cpin: Option<string>)
    requires PinDone(c, pin, cmeError, cpin)
    ensures PinApplied(c, pin, cmeError, cpin) == c
  {
    assert c.ops[REQUEST_PIN_STATE := c.ops[REQUEST_PIN_STATE]] == c.ops;
  }

  lemma PowerFixed(c: Control, power: string, error: bool, poweredDown: bool)
    requires PowerDone(c, power, error, poweredDown)
    ensures PowerApplied(c, power, error, poweredDown) == c
  {
    assert c.ops[POWER_DOWN := c.ops[POWER_DOWN]] == c.ops;
  }

  lemma CallListFixed(c: Control, ready: bool, upToDate: bool)
    requires CallListDone(c, ready, upToDate)
    ensures CallListApplied(c, ready, upToDate) == c
  {
    assert c.ops[REQUEST_CALL_LIST := c.ops[REQUEST_CALL_LIST]] == c.ops;
  }

  lemma CallFixed(c: Control, node: CallNode, ready: bool, calls: Calls, noCarrier: nat)
    requires CallDone(c, node, ready, calls)
    ensures CallApplied(c, node, ready, calls, noCarrier) == c
  {
    assert c.ops[ACCEPT_CALL := c.ops[ACCEPT_CALL]] == c.ops;
  }

  // ---- one pass ----

  /** The pass returns before it looks at the configuration. */
  predicate Early(c: Control, s: Status) { c.ops[REBOOT].Op? || !s.link.rdy }

  /** A pass over this state changes nothing. */
  predicate Settled(c: Control, s: Status, es: seq<Entry>, cfg: Config) {
    && !(s.cmd.ok && InFlight(c.ops))
    && c.ops[CHECK_READY].Op? == !s.link.atOk
    && (Early(c, s)
        || (c.ops[DISABLE_ECHO].Op? == (!s.link.echoDisabled && s.link.atOk)
            && (s.link.echoDisabled ==> MaintenanceDone(c, s, es, cfg) && TelephonyDone(c, s, cfg))))
  }

  lemma SettledIsFixed(c: Control, s: Status, es: seq<Entry>, cfg: Config)
    requires Settled(c, s, es, cfg)
    ensures Prepared(c, s, es, cfg) == c
  {
    hide Demanded, MaintenanceDone, TelephonyDone, First;
    assert c.ops[CHECK_READY := c.ops[CHECK_READY]] == c.ops;
    if !Early(c, s) {
      assert c.ops[DISABLE_ECHO := c.ops[DISABLE_ECHO]] == c.ops;
      if s.link.echoDisabled {
        DoneIsFixed(c, s, es, cfg);
      }
    }
  }

  /** The operations after the result of the last command and the readiness were considered. */
  function Checked(c: Control, s: Status): Control {
    var ops := Completed(s.cmd.ok, c.ops);
    c.(ops := ops[CHECK_READY := Conditional(ops[CHECK_READY], !s.link.atOk)])
  }

  /** The pass starts a reboot of the modem. */
  predicate Reboots(c: Control, s: Status, es: seq<Entry>) {
    !Early(Checked(c, s), s) && s.link.echoDisabled && StartsReboot(Checked(c, s).ops, es)
  }

  function EchoChecked(c: Control, s: Status): Control {
    c.(ops := c.ops[DISABLE_ECHO := Conditional(c.ops[DISABLE_ECHO], !s.link.echoDisabled && s.link.atOk)])
  }

  /** A pass, stage by stage. */
  lemma PreparedIs(c: Control, s: Status, es: seq<Entry>, cfg: Config)
    ensures var c1 := Checked(c, s);
            var c2 := EchoChecked(c1, s);
            Prepared(c, s, es, cfg) == (if Early(c1, s) then c1
                                        else if !s.link.echoDisabled then c2
                                        else Demanded(c2, s, es, cfg))
  {
    hide Completed, Demanded, StartsReboot;
  }

  lemma InFlightMeans(ops: Slots)
    ensures InFlight(ops) <==> exists k: Kind :: In(ops[k], Submitted)
  {
    if k: Kind :| In(ops[k], Submitted) {
      assert !(k < First(ops, Submitted));
    }
  }

  lemma CheckedCompletes(c: Control, s: Status)
    requires AtMostOneSubmitted(c.ops)
    ensures Keeps(c.ops, Checked(c, s).ops)
    ensures s.cmd.ok ==> !InFlight(Checked(c, s).ops)
  {
    InFlightMeans(c.ops);
    InFlightMeans(Checked(c, s).ops);
  }

  lemma KeepsNothingInFlight(a: Slots, b: Slots)
    requires Keeps(a, b) && !InFlight(a)
    ensures !InFlight(b)
  {
    InFlightMeans(a);
    InFlightMeans(b);
    assert forall k: Kind :: !In(a[k], Submitted);
  }

  /** A pass that starts a reboot drops all operations, so the reboot or an operation that the
      rest of the pass adds gets submitted. */
  lemma RebootIsPending(c: Control, s: Status, es: seq<Entry>, cfg: Config)
    requires StartsReboot(c.ops, es)
    ensures var r := Demanded(c, s, es, cfg).ops;
            In(r[REBOOT], Pending) && !InFlight(r) && r[CHECK_READY].Absent?
  {
    hide QcfgApplied, PinApplied, PowerApplied, Telephony, RebootNeeded, First, MaintenanceDone, TelephonyDone;
    var c' := QcfgApplied(c, es, s.cmd.error);
    RebootStarts(c, es, s.cmd.error);
    assert Demanded(c, s, es, cfg) == Demanded(c', s, es, cfg);
    hide Demanded, Maintained;
    DemandSettles(c', s, es, cfg);
    DemandedKeeps(c', s, es, cfg);
    KeepsNothingInFlight(c'.ops, Demanded(c', s, es, cfg).ops);
  }

  lemma RebootStarts(c: Control, es: seq<Entry>, error: bool)
    requires StartsReboot(c.ops, es)
    ensures var r := QcfgApplied(c, es, error);
            && QcfgApplied(r, es, error) == r && !StartsReboot(r.ops, es)
            && In(r.ops[REBOOT], Pending) && !InFlight(r.ops) && r.ops[CHECK_READY].Absent?
  {
    var r := QcfgApplied(c, es, error);
    InFlightMeans(r.ops);
    hide First;
    assert QcfgDone(r, es, error);
    QcfgFixed(r, es, error);
  }

  /** What every pass achieves, apart from submitting an operation. */
  predicate Achieved(r: Control, s: Status, es: seq<Entry>, cfg: Config) {
    && !(s.cmd.ok && InFlight(r.ops))
    && (r.ops[CHECK_READY].Op? ==> !s.link.atOk)
    && (!Early(r, s) ==>
          && r.ops[DISABLE_ECHO].Op? == (!s.link.echoDisabled && s.link.atOk)
          && (s.link.echoDisabled ==>
                && !StartsReboot(r.ops, es)
                && (r.ops[SET_PIN].Op? && s.sim.cpin == Some("SIM PIN") && cfg.pin != "" ==> cfg.pin == r.pin)
                && TelephonyDone(r, s, cfg)))
  }

  /** The pin was refused, and the pass gets as far as to notice it. */
  predicate NoticesRefusal(c: Control, s: Status) {
    PinRefused(Checked(c, s), s) && !Early(Checked(c, s), s) && s.link.echoDisabled
  }

  /** `PassSettles` for a pass that applies the whole configuration. */
  lemma ActivePassSettles(c: Control, s: Status, es: seq<Entry>, cfg: Config)
    requires !Early(c, s) && s.link.echoDisabled && (s.cmd.ok ==> !InFlight(c.ops))
    requires c.ops[CHECK_READY].Op? == !s.link.atOk
    ensures var r := Configured(c, s, es, cfg);
            && Achieved(r, s, es, cfg)
            && (StartsReboot(c.ops, es) ==> In(r.ops[REBOOT], Pending) && !InFlight(r.ops))
            && (!StartsReboot(c.ops, es) ==>
                  if PinRefused(c, s) then r.ops[REQUEST_PIN_COUNT].Op? && r.ops[SET_PIN].Absent?
                  else Settled(r, s, es, cfg))
  {
    hide Demanded, MaintenanceDone, TelephonyDone, RebootNeeded, First;
    var c' := EchoChecked(c, s);
    var r := Configured(c, s, es, cfg);
    assert r == Demanded(c', s, es, cfg);
    hide Configured;
    assert s.cmd.ok ==> !InFlight(r.ops) by {
      if s.cmd.ok {
        ConfiguredKeeps(c, s, es, cfg);
        KeepsNothingInFlight(c.ops, r.ops);
      }
    }
    assert StartsReboot(c'.ops, es) == StartsReboot(c.ops, es);
    assert PinRefused(c', s) == PinRefused(c, s);
    hide StartsReboot, PinRefused, InFlight;
    if StartsReboot(c'.ops, es) {
      RebootIsPending(c', s, es, cfg);
    } else {
      DemandSettles(c', s, es, cfg);
    }
  }

  lemma PassSettles(c: Control, s: Status, es: seq<Entry>, cfg: Config)
    requires AtMostOneSubmitted(c.ops)
    ensures var r := Prepared(c, s, es, cfg);
            && Achieved(r, s, es, cfg)
            && (Reboots(c, s, es) ==> In(r.ops[REBOOT], Pending) && !InFlight(r.ops))
            && (!Reboots(c, s, es) && NoticesRefusal(c, s) ==>
                  r.ops[REQUEST_PIN_COUNT].Op? && r.ops[SET_PIN].Absent?)
            && (!Reboots(c, s, es) && !NoticesRefusal(c, s) ==> Settled(r, s, es, cfg))
  {
    var c1 := Checked(c, s);
    assert Prepared(c, s, es, cfg) == Configured(c1, s, es, cfg);
    CheckedCompletes(c, s);
    if !Early(c1, s) && s.link.echoDisabled {
      hide Configured, Achieved, Settled, RebootNeeded, First, Completed;
      ActivePassSettles(c1, s, es, cfg);
    } else {
      if s.cmd.ok {
        ConfiguredKeeps(c1, s, es, cfg);
        KeepsNothingInFlight(c1.ops, Prepared(c, s, es, cfg).ops);
      }
    }
  }

  // ---- an operation in flight survives the next pass ----

  lemma MaintenanceSpares(c: Control, s: Status, es: seq<Entry>, cfg: Config, k: Kind)
    requires In(c.ops[k], Submitted) && Clean(s.cmd) && !StartsReboot(c.ops, es)
    requires k == SET_PIN && s.sim.cpin == Some("SIM PIN") && cfg.pin != "" ==> cfg.pin == c.pin
    ensures Maintained(c, s, es, cfg).ops[k] == c.ops[k]
    ensures Maintained(c, s, es, cfg).ringCount == c.ringCount
  {
    hide RebootNeeded;
    var c1 := QcfgApplied(c, es, s.cmd.error);
    assert c1.ops[k] == c.ops[k] && c1.pin == c.pin && c1.ringCount == c.ringCount;
    hide QcfgApplied;
    var c2 := PinApplied(c1, cfg.pin, s.cmd.cmeError.Some?, s.sim.cpin);
    assert c2.ops[k] == c1.ops[k] && c2.ringCount == c1.ringCount;
  }

  lemma TelephonySpares(c: Control, s: Status, cfg: Config, k: Kind)
    requires In(c.ops[k], Submitted)
    requires k == REQUEST_CALL_LIST ==> !s.calls.upToDate
    requires k == RING && cfg.ring.Some? ==> c.ringCount == s.counts.ring
    ensures Telephony(c, s, cfg).ops[k] == c.ops[k]
  {
    var c1 := HangUpApplied(c, cfg.call, s.calls.current);
    assert c1.ops[k] == c.ops[k] && c1.ringCount == c.ringCount;
    hide HangUpApplied;
    var c2 := CallListApplied(c1, ReadyForTelephony(s.sim), s.calls.upToDate);
    assert c2.ops[k] == c1.ops[k] && c2.ringCount == c1.ringCount;
    hide CallListApplied;
    if cfg.call.Some? {
      var c3 := CallApplied(c2, cfg.call.value, ReadyForTelephony(s.sim), s.calls, s.counts.noCarrier);
      assert c3.ops[k] == c2.ops[k] && c3.ringCount == c2.ringCount;
    }
  }

  /** What a pass that follows another one finds, with no result for the operation in flight. */
  predicate Waiting(c: Control, s: Status, es: seq<Entry>, cfg: Config, k: Kind) {
    && In(c.ops[k], Submitted) && Clean(s.cmd)
    && (k == CHECK_READY ==> !s.link.atOk)
    && (k == REQUEST_CALL_LIST ==> !s.calls.upToDate)
    && (!Early(c, s) ==>
          && (k == DISABLE_ECHO ==> !s.link.echoDisabled && s.link.atOk)
          && (s.link.echoDisabled ==>
                && !StartsReboot(c.ops, es)
                && (k == SET_PIN && s.sim.cpin == Some("SIM PIN") && cfg.pin != "" ==> cfg.pin == c.pin)
                && (k == RING && cfg.ring.Some? ==> c.ringCount == s.counts.ring)))
  }

  lemma WaitingIsSpared(c: Control, s: Status, es: seq<Entry>, cfg: Config, k: Kind)
    requires Waiting(c, s, es, cfg, k)
    ensures In(Prepared(c, s, es, cfg).ops[k], Submitted) && InFlight(Prepared(c, s, es, cfg).ops)
    ensures !Reboots(c, s, es) && !NoticesRefusal(c, s)
  {
    hide Demanded, First, RebootNeeded;
    var c1 := Checked(c, s);
    assert c1.ops[k] == c.ops[k] && c1.pin == c.pin && c1.ringCount == c.ringCount;
    var c2 := EchoChecked(c1, s);
    if !Early(c1, s) && s.link.echoDisabled {
      MaintenanceSpares(c2, s, es, cfg, k);
      TelephonySpares(Maintained(c2, s, es, cfg), s, cfg, k);
      DemandedIs(c2, s, es, cfg);
    }
    InFlightMeans(Prepared(c, s, es, cfg).ops);
  }

  // ---- exactly when an operation in flight survives a pass ----

  /** The steps for settings, pin and power leave the operation alone. */
  predicate SparedByMaintenance(c: Control, s: Status, cfg: Config, k: Kind) {
    && (k == QUERY_QCFG || k == POWER_DOWN ==> !s.cmd.error)
    && (k == REQUEST_PIN_STATE || k == SET_PIN ==> s.cmd.cmeError.None?)
    && (k == SET_PIN && s.sim.cpin == Some("SIM PIN") && cfg.pin != "" ==> cfg.pin == c.pin)
  }

  /** The steps for the call list, calls and ring tones leave the operation alone. */
  predicate SparedByTelephony(c: Control, s: Status, cfg: Config, k: Kind) {
    && (k == REQUEST_CALL_LIST && ReadyForTelephony(s.sim) ==> !s.calls.upToDate)
    && (k == RING && cfg.ring.Some? ==> c.ringCount == s.counts.ring)
  }

  /** No result completes the operation, and no step of the pass drops it or starts it anew. */
  predicate Spared(c: Control, s: Status, es: seq<Entry>, cfg: Config, k: Kind) {
    && !s.cmd.ok
    && (k == CHECK_READY ==> !s.link.atOk)
    && (!Early(c, s) ==>
          && (k == DISABLE_ECHO ==> !s.link.echoDisabled && s.link.atOk)
          && (s.link.echoDisabled ==>
                !StartsReboot(c.ops, es) && SparedByMaintenance(c, s, cfg, k) && SparedByTelephony(c, s, cfg, k)))
  }

  lemma MaintenanceSparesExactly(c: Control, s: Status, es: seq<Entry>, cfg: Config, k: Kind)
    requires In(c.ops[k], Submitted)
    ensures var r := Maintained(c, s, es, cfg);
            && (In(r.ops[k], Submitted) <==> !StartsReboot(c.ops, es) && SparedByMaintenance(c, s, cfg, k))
            && (!StartsReboot(c.ops, es) ==> r.ringCount == c.ringCount)
  {
    hide QcfgApplied, PinApplied, PowerApplied, StartsReboot;
    PinKeepsRing(QcfgApplied(c, es, s.cmd.error), cfg.pin, s.cmd.cmeError.Some?, s.sim.cpin);
    var c1 := QcfgApplied(c, es, s.cmd.error);
    var c2 := PinApplied(c1, cfg.pin, s.cmd.cmeError.Some?, s.sim.cpin);
    QcfgSparesExactly(c, es, s.cmd.error, k);
    PinKeeps(c1, cfg.pin, s.cmd.cmeError.Some?, s.sim.cpin);
    PowerAndHangUpKeep(c2, s, cfg);
    PowerSparesExactly(c2, cfg.power, s.cmd.error, s.link.poweredDown, k);
    if In(c1.ops[k], Submitted) {
      PinSparesExactly(c1, cfg.pin, s.cmd.cmeError.Some?, s.sim.cpin, k);
    }
  }

  lemma QcfgSparesExactly(c: Control, es: seq<Entry>, error: bool, k: Kind)
    requires In(c.ops[k], Submitted)
    ensures var r := QcfgApplied(c, es, error);
            && (In(r.ops[k], Submitted) <==> !StartsReboot(c.ops, es) && (k == QUERY_QCFG ==> !error))
            && (!StartsReboot(c.ops, es) ==> r.pin == c.pin && r.ringCount == c.ringCount)
  {
    hide RebootNeeded, FirstIn;
  }

  lemma PinSparesExactly(c: Control, pin: string, cmeError: bool, cpin: Option<string>, k: Kind)
    requires In(c.ops[k], Submitted)
    ensures var r := PinApplied(c, pin, cmeError, cpin);
            && (In(r.ops[k], Submitted) <==>
                  && (k == REQUEST_PIN_STATE || k == SET_PIN ==> !cmeError)
                  && (k == SET_PIN && cpin == Some("SIM PIN") && pin != "" ==> pin == c.pin))
  {
  }

  lemma PinKeepsRing(c: Control, pin: string, cmeError: bool, cpin: Option<string>)
    ensures PinApplied(c, pin, cmeError, cpin).ringCount == c.ringCount
  {
  }

  lemma PowerSparesExactly(c: Control, power: string, error: bool, poweredDown: bool, k: Kind)
    ensures var r := PowerApplied(c, power, error, poweredDown);
            && (In(c.ops[k], Submitted) ==> (In(r.ops[k], Submitted) <==> (k == POWER_DOWN ==> !error)))
            && r.ringCount == c.ringCount
  {
  }

  lemma TelephonySparesExactly(c: Control, s: Status, cfg: Config, k: Kind)
    requires In(c.ops[k], Submitted)
    ensures In(Telephony(c, s, cfg).ops[k], Submitted) <==> SparedByTelephony(c, s, cfg, k)
  {
    var c1 := HangUpApplied(c, cfg.call, s.calls.current);
    assert c1.ops[k] == c.ops[k] && c1.ringCount == c.ringCount;
    hide HangUpApplied;
    var c2 := CallListApplied(c1, ReadyForTelephony(s.sim), s.calls.upToDate);
    assert c2.ringCount == c1.ringCount;
    assert In(c2.ops[k], Submitted) <==> !(k == REQUEST_CALL_LIST && ReadyForTelephony(s.sim) && s.calls.upToDate);
    hide CallListApplied;
    if cfg.call.Some? {
      var c3 := CallApplied(c2, cfg.call.value, ReadyForTelephony(s.sim), s.calls, s.counts.noCarrier);
      assert (In(c3.ops[k], Submitted) <==> In(c2.ops[k], Submitted)) && c3.ringCount == c2.ringCount;
    }
  }

  lemma CheckedSparesExactly(c: Control, s: Status, k: Kind)
    requires AtMostOneSubmitted(c.ops) && In(c.ops[k], Submitted)
    ensures In(Checked(c, s).ops[k], Submitted) <==> !s.cmd.ok && (k == CHECK_READY ==> !s.link.atOk)
    ensures !s.cmd.ok ==> Checked(c, s) == c.(ops := Checked(c, s).ops) && Checked(c, s).ops[REBOOT] == c.ops[REBOOT]
  {
    InFlightMeans(c.ops);
  }

  /** Exactly when an operation that is in flight is still so after the pass. In particular a changed
      pin starts an unanswered pin command anew, and a known call list drops the request for it. */
  lemma SurvivesExactlyIfSpared(c: Control, s: Status, es: seq<Entry>, cfg: Config, k: Kind)
    requires AtMostOneSubmitted(c.ops) && In(c.ops[k], Submitted)
    ensures In(Prepared(c, s, es, cfg).ops[k], Submitted) <==> Spared(c, s, es, cfg, k)
  {
    hide Demanded, First, RebootNeeded, Completed, SparedByMaintenance, SparedByTelephony;
    var c1 := Checked(c, s);
    CheckedSparesExactly(c, s, k);
    ConfiguredKeeps(c1, s, es, cfg);
    var c2 := EchoChecked(c1, s);
    if In(c1.ops[k], Submitted) && !Early(c1, s) && s.link.echoDisabled {
      if In(c2.ops[k], Submitted) {
        DemandedSparesExactly(c2, s, es, cfg, k);
        SparedLooksAt(c2, c, s, es, cfg, k);
      } else {
        DemandedKeeps(c2, s, es, cfg);
      }
    }
  }

  lemma DemandedSparesExactly(c: Control, s: Status, es: seq<Entry>, cfg: Config, k: Kind)
    requires In(c.ops[k], Submitted)
    ensures In(Demanded(c, s, es, cfg).ops[k], Submitted)
       <==> (!StartsReboot(c.ops, es) && SparedByMaintenance(c, s, cfg, k) && SparedByTelephony(c, s, cfg, k))
  {
    hide Maintained, Telephony, StartsReboot, SparedByMaintenance;
    var m := Maintained(c, s, es, cfg);
    DemandedIs(c, s, es, cfg);
    MaintenanceSparesExactly(c, s, es, cfg, k);
    if In(m.ops[k], Submitted) {
      TelephonySparesExactly(m, s, cfg, k);
    } else {
      TelephonyKeeps(m, s, cfg);
    }
  }

  lemma SparedLooksAt(a: Control, b: Control, s: Status, es: seq<Entry>, cfg: Config, k: Kind)
    requires a.pin == b.pin && a.ringCount == b.ringCount && a.ops[REBOOT] == b.ops[REBOOT]
    ensures SparedByMaintenance(a, s, cfg, k) == SparedByMaintenance(b, s, cfg, k)
    ensures SparedByTelephony(a, s, cfg, k) == SparedByTelephony(b, s, cfg, k)
    ensures StartsReboot(a.ops, es) == StartsReboot(b.ops, es)
  {
  }

  lemma DemandedIs(c: Control, s: Status, es: seq<Entry>, cfg: Config)
    ensures Demanded(c, s, es, cfg) == Telephony(Maintained(c, s, es, cfg), s, cfg)
  {
  }

  // ---- repeated passes ----

  lemma LaunchedIsWaiting(c: Control, s: Status, es: seq<Entry>, cfg: Config)
    requires Achieved(c, s, es, cfg) && Chosen(c.ops).Some?
    ensures var k := Chosen(c.ops).value;
            Waiting(Launch(c), AfterSend(s, SentBy(c)), es, cfg, k)
    ensures AtMostOneSubmitted(Launch(c).ops)
  {
    hide RebootNeeded, StartsReboot;
    var k := Chosen(c.ops).value;
    InFlightMeans(c.ops);
    assert k == REBOOT ==> !(Launch(c).ops[REBOOT].Absent?);
    StartsRebootLooksAt(c.ops, Launch(c).ops, es);
  }

  lemma StartsRebootLooksAt(a: Slots, b: Slots, es: seq<Entry>)
    requires a[REBOOT].Absent? == b[REBOOT].Absent?
    ensures StartsReboot(a, es) == StartsReboot(b, es)
  {
  }

  lemma PendingMeans(ops: Slots)
    ensures First(ops, Pending) < SLOTS <==> exists k: Kind :: In(ops[k], Pending)
  {
    if k: Kind :| In(ops[k], Pending) {
      assert !(k < First(ops, Pending));
    }
  }

  /** A pass that starts a reboot or notices a refused pin submits an operation. */
  lemma UnsettledPassSends(c: Control, s: Status, es: seq<Entry>, cfg: Config)
    requires AtMostOneSubmitted(c.ops) && (Reboots(c, s, es) || NoticesRefusal(c, s))
    ensures Chosen(Prepared(c, s, es, cfg).ops).Some?
  {
    var r := Prepared(c, s, es, cfg);
    PassSettles(c, s, es, cfg);
    PreparedKeeps(c, s, es, cfg);
    CheckedCompletes(c, s);
    InFlightMeans(r.ops);
    PendingMeans(r.ops);
    hide Prepared, Settled, Achieved, First, RebootNeeded;
    if Reboots(c, s, es) {
      assert In(r.ops[REBOOT], Pending);
    } else {
      assert In(c.ops[SET_PIN], Submitted);
      assert forall k: Kind :: In(r.ops[k], Submitted) ==> k == SET_PIN;
      assert In(r.ops[REQUEST_PIN_COUNT], Pending);
    }
  }

  /** A pass that submits nothing has settled. */
  lemma SilentPassSettles(c: Control, s: Status, es: seq<Entry>, cfg: Config)
    requires AtMostOneSubmitted(c.ops) && Chosen(Prepared(c, s, es, cfg).ops).None?
    ensures Settled(Prepared(c, s, es, cfg), s, es, cfg)
  {
    hide Prepared, Settled, Achieved, Reboots, NoticesRefusal;
    PassSettles(c, s, es, cfg);
    if Reboots(c, s, es) || NoticesRefusal(c, s) {
      UnsettledPassSends(c, s, es, cfg);
    }
  }

  /** After a pass that submits an operation, the next one submits nothing and settles. */
  lemma SecondPassSettles(c: Control, s: Status, es: seq<Entry>, cfg: Config)
    requires AtMostOneSubmitted(c.ops) && Chosen(Prepared(c, s, es, cfg).ops).Some?
    ensures var r := Prepared(c, s, es, cfg);
            var c1, s1 := Launch(r), AfterSend(s, SentBy(r));
            var r1 := Prepared(c1, s1, es, cfg);
            Chosen(r1.ops).None? && Settled(r1, s1, es, cfg)
  {
    hide Prepared, Settled, Achieved, Reboots, NoticesRefusal, First, Waiting, Launch, AfterSend;
    var r := Prepared(c, s, es, cfg);
    PassSettles(c, s, es, cfg);
    LaunchedIsWaiting(r, s, es, cfg);
    var c1, s1 := Launch(r), AfterSend(s, SentBy(r));
    WaitingIsSpared(c1, s1, es, cfg, Chosen(r.ops).value);
    PassSettles(c1, s1, es, cfg);
  }

  /** A pass without lines, spelled out. */
  lemma PassWithoutLines(d: Driver, cfg: Config)
    ensures var e := Pass([], cfg);
            var r := Prepared(d.control, d.status, d.entries, cfg);
            && SentAt(d, e) == SentBy(r)
            && Step(d, e) == Driver(AfterSend(d.status, SentBy(r)), d.entries, Launch(r),
                                    ReportedCall(d.reported, d.status, AfterSend(d.status, SentBy(r))))
  {
  }

  /** Nothing is left to do or to submit, and the reported call is current. */
  predicate AtRest(d: Driver, cfg: Config) {
    && Settled(d.control, d.status, d.entries, cfg)
    && Chosen(d.control.ops).None?
    && ReportedCall(d.reported, d.status, d.status) == d.reported
  }

  lemma AtRestIsFixed(d: Driver, cfg: Config)
    requires AtRest(d, cfg)
    ensures Step(d, Pass([], cfg)) == d && SentAt(d, Pass([], cfg)).None?
  {
    SettledIsFixed(d.control, d.status, d.entries, cfg);
    PassWithoutLines(d, cfg);
  }

  /** A pass without new lines that submits nothing comes to rest. */
  lemma SilentPassRests(d: Driver, cfg: Config)
    requires AtMostOneSubmitted(d.control.ops)
    requires SentAt(d, Pass([], cfg)).None?
    ensures AtRest(Step(d, Pass([], cfg)), cfg)
  {
    hide Prepared, Settled, First, CommandOf;
    PassWithoutLines(d, cfg);
    SilentPassSettles(d.control, d.status, d.entries, cfg);
  }

  /** A pass without new lines that follows one that submitted an operation submits nothing. */
  lemma NothingAfterSend(d: Driver, cfg: Config)
    requires AtMostOneSubmitted(d.control.ops)
    requires SentAt(d, Pass([], cfg)).Some?
    ensures var d1 := Step(d, Pass([], cfg));
            SentAt(d1, Pass([], cfg)).None? && AtMostOneSubmitted(d1.control.ops)
  {
    hide Prepared, Settled, First, CommandOf, ReportedCall, Achieved;
    PassWithoutLines(d, cfg);
    PassWithoutLines(Step(d, Pass([], cfg)), cfg);
    SecondPassSettles(d.control, d.status, d.entries, cfg);
    PassSettles(d.control, d.status, d.entries, cfg);
    LaunchedIsWaiting(Prepared(d.control, d.status, d.entries, cfg), d.status, d.entries, cfg);
  }

  /** Repeating a pass without new lines: only the first one can submit a command, and from the
      second one on nothing changes any more. */
  lemma OnlyTheFirstPassSends(d: Driver, cfg: Config)
    requires AtMostOneSubmitted(d.control.ops)
    ensures var e := Pass([], cfg);
            && SentAt(Step(d, e), e).None?
            && Step(Step(Step(d, e), e), e) == Step(Step(d, e), e)
            && SentAt(Step(Step(d, e), e), e).None?
  {
    hide Step, SentAt, AtRest;
    var e := Pass([], cfg);
    AtRestAfterTwo(d, cfg);
    AtRestIsFixed(Step(Step(d, e), e), cfg);
  }

  function Repeated(e: Event, n: nat): seq<Event> {
    if n == 0 then [] else [e] + Repeated(e, n - 1)
  }

  lemma {:induction false} RestLasts(d: Driver, cfg: Config, n: nat)
    requires AtRest(d, cfg)
    ensures Run(d, Repeated(Pass([], cfg), n)) == d && SentDuring(d, Repeated(Pass([], cfg), n)) == []
  {
    if n > 0 {
      hide AtRest;
      AtRestIsFixed(d, cfg);
      RestLasts(d, cfg, n - 1);
      assert Repeated(Pass([], cfg), n)[1..] == Repeated(Pass([], cfg), n - 1);
    }
  }

  /** However often the pass is repeated while the modem is silent, at most one command is sent. */
  lemma SilenceSendsAtMostOnce(d: Driver, cfg: Config, n: nat)
    requires AtMostOneSubmitted(d.control.ops)
    ensures |SentDuring(d, Repeated(Pass([], cfg), n))| <= 1
    ensures n >= 2 ==> Run(d, Repeated(Pass([], cfg), n)) == Step(Step(d, Pass([], cfg)), Pass([], cfg))
  {
    hide Step, SentAt, AtRest, AtMostOneSubmitted;
    var e := Pass([], cfg);
    if n >= 2 {
      assert Repeated(e, n)[1..] == Repeated(e, n - 1) && Repeated(e, n - 1)[1..] == Repeated(e, n - 2);
      AtRestAfterTwo(d, cfg);
      RestLasts(Step(Step(d, e), e), cfg, n - 2);
    } else if n == 1 {
      assert Repeated(e, 1)[1..] == [];
    }
  }

  lemma AtRestAfterTwo(d: Driver, cfg: Config)
    requires AtMostOneSubmitted(d.control.ops)
    ensures var e := Pass([], cfg);
            SentAt(Step(d, e), e).None? && AtRest(Step(Step(d, e), e), cfg)
  {
    hide Step, SentAt, AtRest;
    var e := Pass([], cfg);
    if SentAt(d, e).None? {
      SilentPassRests(d, cfg);
      AtRestIsFixed(Step(d, e), cfg);
    } else {
      NothingAfterSend(d, cfg);
      SilentPassRests(Step(d, e), cfg);
    }
  }

  /** After any run from the beginning, against any modem: however often a pass is repeated while
      the modem is silent, at most one command is sent. */
  lemma SilenceAfterAnyRun(entries: seq<Entry>, events: seq<Event>, cfg: Config, n: nat)
    ensures |SentDuring(Run(Initial(entries), events), Repeated(Pass([], cfg), n))| <= 1
  {
    hide Step, SentAt, AccountedUnlessEnded;
    InitialIsCoherent(entries);
    RunsNeverOverlap(Initial(entries), events);
    SilenceSendsAtMostOnce(Run(Initial(entries), events), cfg, n);
  }

  // ---- passes with lines ----

  /** A pass that submits nothing comes to rest, whatever it has heard. */
  lemma QuietPassRests(d: Driver, lines: seq<string>, cfg: Config)
    requires AtMostOneSubmitted(d.control.ops) && SentIn(d, lines, cfg).None?
    ensures SentAt(Applied(d, lines, cfg), Pass([], cfg)).None?
  {
    hide ApplyLines, Prepared, Launch, ReportedCall, CommandOf, First;
    var heard := ApplyLines(d.status, d.entries, lines);
    var h := d.(status := heard.0, entries := heard.1);
    var d' := Applied(d, lines, cfg);
    PassWithoutLines(h, cfg);
    PassWithoutLines(d', cfg);
    SilentPassRests(h, cfg);
    PassWithoutLines(Step(h, Pass([], cfg)), cfg);
    AtRestSubmitsNothing(Step(h, Pass([], cfg)), cfg);
    assert d'.control == Step(h, Pass([], cfg)).control && d'.status == Step(h, Pass([], cfg)).status;
  }

  lemma AtRestSubmitsNothing(d: Driver, cfg: Config)
    requires AtRest(d, cfg)
    ensures SentAt(d, Pass([], cfg)).None?
  {
    hide Prepared, Settled;
    AtRestIsFixed(d, cfg);
  }

  lemma LineCounts(s: Status, es: seq<Entry>, m: Message)
    ensures s.counts.version <= Apply(s, es, m).counts.version
  {
    hide Changes;
  }

  lemma {:induction false} LinesCount(s: Status, es: seq<Entry>, lines: seq<string>)
    ensures s.counts.version <= ApplyLines(s, es, lines).0.counts.version
    decreases |lines|
  {
    hide Apply, Parse, EntriesAfter;
    if lines != [] {
      var m := Parse(lines[0]);
      LineCounts(s, es, m);
      LinesCount(Apply(s, es, m), EntriesAfter(es, s.cmd.pending, m), lines[1..]);
    }
  }

  /** A pass that leaves the version as it was has submitted nothing. */
  lemma SubmissionsAreCounted(d: Driver, lines: seq<string>, cfg: Config)
    ensures var d' := Applied(d, lines, cfg);
            && d.status.counts.version <= d'.status.counts.version
            && (SentIn(d, lines, cfg).Some? ==> d.status.counts.version < d'.status.counts.version)
  {
    hide ApplyLines, PreparedFor, Launch, ReportedCall;
    LinesCount(d.status, d.entries, lines);
  }
}
