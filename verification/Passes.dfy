/** What a pass sends, in terms of the modem's state and the configuration alone
    (src/driver/modem/at_protocol/control.h:43-147, 234-247, 314-548). */
module Passes {
  import opened Options
  import opened AtText
  import opened Qcfgs
  import opened Statuses
  import opened Controls
  import opened Drivers
  import opened Coherence
  import opened Settling
  import opened Guarantees

  // ---- what is wanted ----

  /** The configuration is looked at: the modem is up, its echo is disabled and no reboot is under way. */
  predicate Looks(ops: Slots, s: Status) { ops[7].Absent? && s.link.rdy && s.link.echoDisabled }

  /** Nothing is left to be queried or assigned, and something was changed. */
  predicate Restarts(ops: Slots, s: Status, es: seq<Entry>) {
    && Looks(ops, s)
    && (forall i :: 0 <= i < |es| ==> es[i].state != Unknown && es[i].state != Mismatch)
    && (exists i :: 0 <= i < |es| && es[i].state == Modified)
  }

  predicate WantsPin(s: Status, cfg: Config, pin: string) {
    s.sim.cpin == Some("SIM PIN") && cfg.pin != "" && cfg.pin != pin
  }

  /** A call that was placed is no longer asked for, or one that comes in or is active is refused. */
  predicate WantsEnd(c: Control, s: Status, cfg: Config) {
    var rejected := cfg.call.Some? && cfg.call.value.state == Some("rejected");
    || (c.outbound.Some? && (cfg.call.None? || rejected))
    || (rejected && s.calls.current.Some? && s.calls.current.value.stat in {Incoming, Active})
  }

  /** A call is asked for, and the list of calls is known. */
  predicate WantsCall(s: Status, cfg: Config) {
    && cfg.call.Some? && (cfg.call.value.state == None || cfg.call.value.state == Some("accepted"))
    && s.sim.cpin == Some("READY") && s.calls.upToDate
  }

  predicate WantsDial(c: Control, s: Status, cfg: Config) {
    && WantsCall(s, cfg) && s.calls.current.None?
    && !(c.outbound.Some? && c.outbound.value.call.number == cfg.call.value.number)
  }

  predicate WantsAnswer(s: Status, cfg: Config) {
    WantsCall(s, cfg) && s.calls.current.Some? && s.calls.current.value.stat == Incoming
  }

  function Number(cfg: Config): string { if cfg.call.Some? then cfg.call.value.number else "" }

  /** The command of an operation that exists already. */
  function Kept(ops: Slots, k: Kind): Option<string> {
    if ops[k].Op? then Some(CommandOf(k, ops[k])) else None
  }

  /** The command for the first entry in the given state. */
  function ForEntry(es: seq<Entry>, state: EntryState): Option<string> {
    if es == [] then None
    else if es[0].state != state then ForEntry(es[1..], state)
    else if state == Unknown then Some("AT+QCFG=\"" + es[0].name + "\"")
    else Some("AT+QCFG=\"" + es[0].name + "\"," + es[0].value)
  }

  function Or(first: Option<string>, second: Option<string>): Option<string> { if first.Some? then first else second }

  function When(condition: bool, command: string): Option<string> { if condition then Some(command) else None }

  /** Every command that a pass would like to send, in the order of priority. A reboot makes it forget
      what was waiting. */
  function Wishes(c: Control, s: Status, es: seq<Entry>, cfg: Config): (r: seq<Option<string>>)
    ensures |r| == SLOTS
  {
    var looks, restarts := Looks(c.ops, s), Restarts(c.ops, s, es);
    var ops := if restarts then NO_OPERATIONS else c.ops;
    var ready := s.sim.cpin == Some("READY");
    [
      When(!restarts && !s.link.atOk, "AT"),
      if c.ops[7].Op? || !s.link.rdy then Kept(c.ops, 1) else When(!s.link.echoDisabled && s.link.atOk, "ATE0"),
      Or(When(looks && cfg.power == "off" && !s.link.poweredDown, "AT+QPOWD"), Kept(ops, 2)),
      Or(When(looks && cfg.ring.Some? && c.ringCount != s.counts.ring, cfg.ring.GetOr("")), Kept(ops, 3)),
      Or(When(looks && WantsPin(s, cfg, if restarts then "" else c.pin), "AT+CPIN=" + cfg.pin), Kept(ops, 4)),
      Or(When(looks && s.sim.cpin == None, "AT+CPIN?"), Kept(ops, 5)),
      Kept(ops, 6),
      Or(When(restarts, "AT+CFUN=1,1"), Kept(ops, 7)),
      Or(Kept(ops, 8), if looks && !restarts then ForEntry(es, Unknown) else None),
      Or(Kept(ops, 9), if looks && !restarts then ForEntry(es, Mismatch) else None),
      Or(When(looks && WantsEnd(c, s, cfg), "ATH"), Kept(ops, 10)),
      if looks && ready then When(!s.calls.upToDate, "AT+CLCC") else Kept(ops, 11),
      Or(Kept(ops, 12), if looks && WantsDial(c, s, cfg) then Some("ATD" + cfg.call.value.number + ";") else None),
      Or(When(looks && WantsAnswer(s, cfg), "ATA"), Kept(ops, 13))
    ]
  }

  function FirstWish(wishes: seq<Option<string>>): Option<string> {
    if wishes == [] then None else Or(wishes[0], FirstWish(wishes[1..]))
  }

  // ---- the steps, slot by slot ----

  predicate Idle(ops: Slots) { forall k: Kind :: !In(ops[k], Submitted) }

  lemma {:induction false} EntryCommand(es: seq<Entry>, state: EntryState)
    requires state == Unknown || state == Mismatch
    ensures ForEntry(es, state)
         == var e := FirstIn(es, state);
            if e.None? then None
            else if state == Unknown then Some(QueryText(e.value.name)) else Some(AssignText(e.value.name, e.value.value))
  {
    if es != [] {
      if es[0].state == state {
        var e := es[0];
        assert "AT+QCFG=\"" + e.name + "\"" == QueryText(e.name);
        assert "AT+QCFG=\"" + e.name + "\"," + e.value == AssignText(e.name, e.value);
      } else {
        EntryCommand(es[1..], state);
      }
    }
  }

  lemma MaintainedSlots(c: Control, s: Status, es: seq<Entry>, cfg: Config)
    requires Idle(c.ops) && !StartsReboot(c.ops, es)
    ensures var r := Maintained(c, s, es, cfg);
            && (forall k: Kind :: k != 2 && k != 4 && k != 5 && k != 8 && k != 9 ==> r.ops[k] == c.ops[k])
            && r.ops[2] == (if cfg.power == "off" && !s.link.poweredDown then Ensure(c.ops[2], "") else c.ops[2])
            && r.ops[4] == (if WantsPin(s, cfg, c.pin) then New(cfg.pin, "") else c.ops[4])
            && r.ops[5] == (if s.sim.cpin == None then Ensure(c.ops[5], "") else c.ops[5])
            && r.ops[8] == Query(c.ops[8], es) && r.ops[9] == Assign(c.ops[9], es)
            && r.pin == (if WantsPin(s, cfg, c.pin) then cfg.pin else c.pin)
            && r.ringCount == c.ringCount && r.outbound == c.outbound && Idle(r.ops)
  {
    hide StartsReboot, FirstIn, RebootNeeded, Query, Assign;
    assert forall k: Kind, b: bool :: RetryFailed(c.ops[k], b) == c.ops[k];
    var c1 := QcfgApplied(c, es, s.cmd.error);
    assert c1 == c.(ops := c.ops[QUERY_QCFG := Query(c.ops[8], es)][ASSIGN_QCFG := Assign(c.ops[9], es)]);
    QueryAndAssignAreIdle(c.ops, es);
    hide QcfgApplied;
    assert forall k: Kind, b: bool :: RetryFailed(c1.ops[k], b) == c1.ops[k];
    PinSlots(c1, s, cfg);
    var c2 := PinApplied(c1, cfg.pin, s.cmd.cmeError.Some?, s.sim.cpin);
    hide PinApplied;
    assert RetryFailed(c2.ops[2], s.cmd.error) == c2.ops[2];
  }

  lemma QueryAndAssignAreIdle(ops: Slots, es: seq<Entry>)
    requires Idle(ops)
    ensures !In(Query(ops[8], es), Submitted) && !In(Assign(ops[9], es), Submitted)
  {
  }

  lemma PinSlots(c: Control, s: Status, cfg: Config)
    requires Idle(c.ops)
    ensures var r := PinApplied(c, cfg.pin, s.cmd.cmeError.Some?, s.sim.cpin);
            && (forall k: Kind :: k != 4 && k != 5 ==> r.ops[k] == c.ops[k])
            && r.ops[4] == (if WantsPin(s, cfg, c.pin) then New(cfg.pin, "") else c.ops[4])
            && r.ops[5] == (if s.sim.cpin == None then Ensure(c.ops[5], "") else c.ops[5])
            && r.pin == (if WantsPin(s, cfg, c.pin) then cfg.pin else c.pin)
            && r.ringCount == c.ringCount && r.outbound == c.outbound && Idle(r.ops)
  {
  }

  /** The note about a placed call, after a pass that looked at the configuration. */
  function NoteAfter(c: Control, s: Status, cfg: Config): Option<Outbound> {
    var note := if c.ops[10].Absent? && c.outbound.Some?
                   && (cfg.call.None? || cfg.call.value.state == Some("rejected")) then None else c.outbound;
    if cfg.call.None? || s.sim.cpin != Some("READY") || !s.calls.upToDate then note
    else if WantsDial(c, s, cfg) && c.ops[12].Absent? then
      Some(Outbound(Call(cfg.call.value.number, Dialing), s.counts.noCarrier))
    else if note.None? then None
    else
      var call := if s.calls.current.Some? then s.calls.current.value else note.value.call;
      if call.number == cfg.call.value.number then Some(note.value.(call := call)) else None
  }

  /** What the steps for calls and rings make of the slots. */
  predicate CallSlotsAre(r: Slots, c: Control, s: Status, cfg: Config) {
    && (forall k: Kind :: k != 3 && k < 10 ==> r[k] == c.ops[k])
    && r[3] == (if cfg.ring.Some? && c.ringCount != s.counts.ring then New(cfg.ring.value, "") else c.ops[3])
    && r[10] == (if WantsEnd(c, s, cfg) then Ensure(c.ops[10], "") else c.ops[10])
    && r[11] == (if s.sim.cpin == Some("READY") then Conditional(c.ops[11], !s.calls.upToDate) else c.ops[11])
    && r[12] == (if WantsDial(c, s, cfg) then Ensure(c.ops[12], Number(cfg)) else c.ops[12])
    && r[13] == (if WantsAnswer(s, cfg) then Ensure(c.ops[13], "") else c.ops[13])
  }

  lemma TelephonySlots(c: Control, s: Status, cfg: Config)
    ensures var r := Telephony(c, s, cfg);
            && CallSlotsAre(r.ops, c, s, cfg) && (Idle(c.ops) ==> Idle(r.ops))
            && r.outbound == NoteAfter(c, s, cfg)
            && r.ringCount == (if cfg.ring.Some? then s.counts.ring else c.ringCount) && r.pin == c.pin
  {
    hide CallApplied, HangUpApplied, CallListApplied, RingApplied, WantsEnd, WantsDial, WantsAnswer, NoteAfter, Conditional,
         Ensure, Idle, CallSlotsAre, ReadyForTelephony;
    var c1 := HangUpApplied(c, cfg.call, s.calls.current);
    EndSlots(c, s, cfg);
    var c2 := CallListApplied(c1, ReadyForTelephony(s.sim), s.calls.upToDate);
    CallListSlots(c1, s);
    var c3 := c2;
    if cfg.call.Some? {
      c3 := CallApplied(c2, cfg.call.value, ReadyForTelephony(s.sim), s.calls, s.counts.noCarrier);
      CallSlots(c, c2, s, cfg);
    } else {
      NoteWithoutCall(c, s, cfg);
    }
    var c4 := if cfg.ring.Some? then RingApplied(c3, cfg.ring.value, s.counts.ring) else c3;
    RingSlots(c3, s, cfg);
    assert CallSlotsAre(c4.ops, c, s, cfg) by {
      SlotsTogether(c, c1.ops, c2.ops, c3.ops, c4.ops, s, cfg);
    }
    CallSlotsAreIdle(c4.ops, c, s, cfg);
  }

  lemma SlotsTogether(c: Control, ops1: Slots, ops2: Slots, ops3: Slots, ops4: Slots, s: Status, cfg: Config)
    requires forall k: Kind :: k != 10 ==> ops1[k] == c.ops[k]
    requires forall k: Kind :: k != 11 ==> ops2[k] == ops1[k]
    requires forall k: Kind :: k < 12 ==> ops3[k] == ops2[k]
    requires forall k: Kind :: k != 3 ==> ops4[k] == ops3[k]
    requires ops1[10] == if WantsEnd(c, s, cfg) then Ensure(c.ops[10], "") else c.ops[10]
    requires ops2[11] == if s.sim.cpin == Some("READY") then Conditional(ops1[11], !s.calls.upToDate) else ops1[11]
    requires ops3[12] == if WantsDial(c, s, cfg) then Ensure(c.ops[12], Number(cfg)) else c.ops[12]
    requires ops3[13] == if WantsAnswer(s, cfg) then Ensure(c.ops[13], "") else c.ops[13]
    requires ops4[3] == if cfg.ring.Some? && c.ringCount != s.counts.ring then New(cfg.ring.value, "") else ops3[3]
    ensures CallSlotsAre(ops4, c, s, cfg)
  {
    hide WantsEnd, WantsDial, WantsAnswer, Ensure, Conditional;
  }

  lemma CallSlotsAreIdle(r: Slots, c: Control, s: Status, cfg: Config)
    requires CallSlotsAre(r, c, s, cfg)
    ensures Idle(c.ops) ==> Idle(r)
  {
    hide WantsEnd, WantsDial, WantsAnswer, Ensure, Conditional;
    NothingIsSubmitted();
  }

  lemma NoteWithoutCall(c: Control, s: Status, cfg: Config)
    requires cfg.call.None?
    ensures !WantsDial(c, s, cfg) && !WantsAnswer(s, cfg)
    ensures NoteAfter(c, s, cfg) == if c.ops[10].Absent? then None else c.outbound
  {
  }

  lemma CallListSlots(c: Control, s: Status)
    ensures var r := CallListApplied(c, ReadyForTelephony(s.sim), s.calls.upToDate);
            && (forall k: Kind :: k != 11 ==> r.ops[k] == c.ops[k])
            && r.ops[11] == (if s.sim.cpin == Some("READY") then Conditional(c.ops[11], !s.calls.upToDate) else c.ops[11])
            && r.outbound == c.outbound && r.pin == c.pin && r.ringCount == c.ringCount
  {
  }

  lemma RingSlots(c: Control, s: Status, cfg: Config)
    ensures var r := if cfg.ring.Some? then RingApplied(c, cfg.ring.value, s.counts.ring) else c;
            && (forall k: Kind :: k != 3 ==> r.ops[k] == c.ops[k])
            && r.ops[3] == (if cfg.ring.Some? && c.ringCount != s.counts.ring then New(cfg.ring.value, "") else c.ops[3])
            && r.outbound == c.outbound && r.pin == c.pin
            && r.ringCount == (if cfg.ring.Some? then s.counts.ring else c.ringCount)
  {
  }

  lemma NothingIsSubmitted()
    ensures forall op: Slot, arg: string :: In(Ensure(op, arg), Submitted) ==> In(op, Submitted)
    ensures forall op: Slot, b: bool :: In(Conditional(op, b), Submitted) ==> In(op, Submitted)
  {
  }

  lemma EndSlots(c: Control, s: Status, cfg: Config)
    ensures var r := HangUpApplied(c, cfg.call, s.calls.current);
            && (forall k: Kind :: k != 10 ==> r.ops[k] == c.ops[k])
            && r.ops[10] == (if WantsEnd(c, s, cfg) then Ensure(c.ops[10], "") else c.ops[10])
            && r.outbound == (if c.ops[10].Absent? && c.outbound.Some?
                                 && (cfg.call.None? || cfg.call.value.state == Some("rejected")) then None else c.outbound)
            && r.pin == c.pin && r.ringCount == c.ringCount
  {
  }

  lemma CallSlots(c: Control, c2: Control, s: Status, cfg: Config)
    requires cfg.call.Some? && c2.ops[12] == c.ops[12] && c2.ops[13] == c.ops[13]
    requires c2.outbound == if c.ops[10].Absent? && c.outbound.Some?
                               && (cfg.call.None? || cfg.call.value.state == Some("rejected")) then None else c.outbound
    ensures var r := CallApplied(c2, cfg.call.value, ReadyForTelephony(s.sim), s.calls, s.counts.noCarrier);
            && (forall k: Kind :: k < 12 ==> r.ops[k] == c2.ops[k])
            && r.ops[12] == (if WantsDial(c, s, cfg) then Ensure(c.ops[12], Number(cfg)) else c.ops[12])
            && r.ops[13] == (if WantsAnswer(s, cfg) then Ensure(c.ops[13], "") else c.ops[13])
            && r.outbound == NoteAfter(c, s, cfg) && r.pin == c2.pin && r.ringCount == c2.ringCount
  {
  }

  // ---- the whole pass ----

  /** The slots hold the wishes, and all of them are pending. */
  predicate Holds(ops: Slots, wishes: seq<Option<string>>) {
    |wishes| == SLOTS && Idle(ops) && forall k: Kind :: Kept(ops, k) == wishes[k]
  }

  lemma RestartsMeans(ops: Slots, s: Status, es: seq<Entry>)
    ensures Restarts(ops, s, es) <==> Looks(ops, s) && StartsReboot(ops, es)
  {
  }

  /** The pass goes on with these operations after a reboot was started. */
  lemma RestartedIs(c: Control, s: Status, es: seq<Entry>, cfg: Config)
    requires StartsReboot(c.ops, es)
    ensures var c' := c.(ops := NO_OPERATIONS[7 := New("", "")], pin := "");
            Demanded(c, s, es, cfg) == Demanded(c', s, es, cfg) && !StartsReboot(c'.ops, es)
  {
    hide RebootNeeded, Telephony, PinApplied, PowerApplied;
    RebootStarts(c, es, s.cmd.error);
  }

  /** The operations once the configuration was looked at, from the slots before. */
  lemma DemandedSlots(c: Control, s: Status, es: seq<Entry>, cfg: Config)
    requires Idle(c.ops) && !StartsReboot(c.ops, es)
    ensures var r := Demanded(c, s, es, cfg);
            && SlotsAre(r.ops, c, s, es, cfg) && Idle(r.ops)
            && r.pin == (if WantsPin(s, cfg, c.pin) then cfg.pin else c.pin)
            && r.ringCount == (if cfg.ring.Some? then s.counts.ring else c.ringCount)
            && r.outbound == NoteAfter(c, s, cfg)
  {
    hide StartsReboot, Maintained, Telephony, Query, Assign, Conditional, Ensure, WantsPin, NoteAfter, WantsEnd, WantsDial,
         WantsAnswer, Idle;
    var m := Maintained(c, s, es, cfg);
    MaintainedSlots(c, s, es, cfg);
    DemandedIs(c, s, es, cfg);
    WantsAgree(c, m, s, cfg);
    TelephonySlots(m, s, cfg);
    NoteDependsOn(c, m, s, cfg);
  }

  lemma NoteDependsOn(c: Control, m: Control, s: Status, cfg: Config)
    requires c.ops[10] == m.ops[10] && c.ops[12] == m.ops[12] && c.outbound == m.outbound
    ensures NoteAfter(c, s, cfg) == NoteAfter(m, s, cfg)
  {
  }

  lemma NoEntryCommand(ops: Slots, s: Status, es: seq<Entry>)
    ensures Restarts(ops, s, es) ==> ForEntry(es, Unknown).None? && ForEntry(es, Mismatch).None?
  {
    EntryCommand(es, Unknown);
    EntryCommand(es, Mismatch);
  }

  /** The command of every kind of operation. */
  lemma CommandTexts(op: Slot)
    requires op.Op?
    ensures CommandOf(0, op) == "AT" && CommandOf(1, op) == "ATE0" && CommandOf(2, op) == "AT+QPOWD"
    ensures CommandOf(3, op) == op.arg && CommandOf(4, op) == "AT+CPIN=" + op.arg && CommandOf(5, op) == "AT+CPIN?"
    ensures CommandOf(6, op) == "AT+QPINC?" && CommandOf(7, op) == "AT+CFUN=1,1"
    ensures CommandOf(8, op) == QueryText(op.arg) && CommandOf(9, op) == AssignText(op.arg, op.value)
    ensures CommandOf(10, op) == "ATH" && CommandOf(11, op) == "AT+CLCC"
    ensures CommandOf(12, op) == "ATD" + op.arg + ";" && CommandOf(13, op) == "ATA"
  {
  }

  lemma SettingSlots(r: Slots, c: Slots, es: seq<Entry>)
    requires r[8] == Query(c[8], es) && r[9] == Assign(c[9], es)
    ensures Kept(r, 8) == Or(Kept(c, 8), ForEntry(es, Unknown)) && Kept(r, 9) == Or(Kept(c, 9), ForEntry(es, Mismatch))
  {
    hide FirstIn, ForEntry, QueryText, AssignText;
    EntryCommand(es, Unknown);
    EntryCommand(es, Mismatch);
  }

  lemma OtherSlots(r: Slots, c: Slots, k: Kind, condition: bool, arg: string)
    requires k == 4 || k == 3 ==> r[k] == if condition then New(arg, "") else c[k]
    requires k == 2 || k == 5 || k == 10 || k == 13 ==> r[k] == if condition then Ensure(c[k], "") else c[k]
    requires k == 12 ==> r[k] == if condition then Ensure(c[k], arg) else c[k]
    ensures k == 2 ==> Kept(r, k) == Or(When(condition, "AT+QPOWD"), Kept(c, k))
    ensures k == 3 ==> Kept(r, k) == Or(When(condition, arg), Kept(c, k))
    ensures k == 4 ==> Kept(r, k) == Or(When(condition, "AT+CPIN=" + arg), Kept(c, k))
    ensures k == 5 ==> Kept(r, k) == Or(When(condition, "AT+CPIN?"), Kept(c, k))
    ensures k == 10 ==> Kept(r, k) == Or(When(condition, "ATH"), Kept(c, k))
    ensures k == 12 ==> Kept(r, k) == Or(Kept(c, k), When(condition, "ATD" + arg + ";"))
    ensures k == 13 ==> Kept(r, k) == Or(When(condition, "ATA"), Kept(c, k))
  {
    hide CommandOf;
    if c[k].Op? { CommandTexts(c[k]); }
    if r[k].Op? { CommandTexts(r[k]); }
  }

  /** `c` is what the configuration is looked at with: without what was waiting if a reboot starts. */
  predicate Begins(c: Control, c0: Control, s: Status, es: seq<Entry>) {
    && Looks(c0.ops, s) && c.ringCount == c0.ringCount && c.outbound == c0.outbound
    && if Restarts(c0.ops, s, es) then c.ops == NO_OPERATIONS[7 := New("", "")] && c.pin == ""
       else c.pin == c0.pin && c.ops[0].Op? == !s.link.atOk && c.ops[1].Absent?
            && forall k: Kind :: k >= 2 ==> c.ops[k] == c0.ops[k]
  }

  /** The wishes, in terms of the slots that the configuration is looked at with. */
  predicate WishesAre(w: seq<Option<string>>, c: Control, s: Status, es: seq<Entry>, cfg: Config) {
    && |w| == SLOTS
    && w[0] == When(c.ops[0].Op?, "AT") && w[1] == Kept(c.ops, 1) && w[6] == Kept(c.ops, 6) && w[7] == Kept(c.ops, 7)
    && w[2] == Or(When(cfg.power == "off" && !s.link.poweredDown, "AT+QPOWD"), Kept(c.ops, 2))
    && w[3] == Or(When(cfg.ring.Some? && c.ringCount != s.counts.ring, cfg.ring.GetOr("")), Kept(c.ops, 3))
    && w[4] == Or(When(WantsPin(s, cfg, c.pin), "AT+CPIN=" + cfg.pin), Kept(c.ops, 4))
    && w[5] == Or(When(s.sim.cpin == None, "AT+CPIN?"), Kept(c.ops, 5))
    && w[8] == Or(Kept(c.ops, 8), ForEntry(es, Unknown)) && w[9] == Or(Kept(c.ops, 9), ForEntry(es, Mismatch))
    && w[10] == Or(When(WantsEnd(c, s, cfg), "ATH"), Kept(c.ops, 10))
    && w[11] == (if s.sim.cpin == Some("READY") then When(!s.calls.upToDate, "AT+CLCC") else Kept(c.ops, 11))
    && w[12] == Or(Kept(c.ops, 12), When(WantsDial(c, s, cfg), "ATD" + Number(cfg) + ";"))
    && w[13] == Or(When(WantsAnswer(s, cfg), "ATA"), Kept(c.ops, 13))
  }

  lemma WishesFrom(c: Control, c0: Control, s: Status, es: seq<Entry>, cfg: Config)
    requires Begins(c, c0, s, es)
    ensures WishesAre(Wishes(c0, s, es, cfg), c, s, es, cfg)
  {
    hide Wishes, WishesAre;
    if Restarts(c0.ops, s, es) {
      WishesOfRestart(c, c0, s, es, cfg);
    } else {
      WishesWithout(c, c0, s, es, cfg);
    }
  }

  lemma WishesOfRestart(c: Control, c0: Control, s: Status, es: seq<Entry>, cfg: Config)
    requires Begins(c, c0, s, es) && Restarts(c0.ops, s, es)
    ensures WishesAre(Wishes(c0, s, es, cfg), c, s, es, cfg)
  {
    hide Restarts, WantsPin, WantsCall, FirstIn, CommandOf, ForEntry, WantsEnd, WantsDial, WantsAnswer;
    NoEntryCommand(c0.ops, s, es);
    WantsAgree(c, c0, s, cfg);
    CommandTexts(New("", ""));
  }

  lemma WishesWithout(c: Control, c0: Control, s: Status, es: seq<Entry>, cfg: Config)
    requires Begins(c, c0, s, es) && !Restarts(c0.ops, s, es)
    ensures WishesAre(Wishes(c0, s, es, cfg), c, s, es, cfg)
  {
    hide Restarts, WantsPin, WantsCall, FirstIn, CommandOf, ForEntry, WantsEnd, WantsDial, WantsAnswer;
    WantsAgree(c, c0, s, cfg);
    var w := Wishes(c0, s, es, cfg);
    assert forall k: Kind :: k >= 2 ==> Kept(c.ops, k) == Kept(c0.ops, k);
  }

  lemma AllFourteen(ops: Slots, w: seq<Option<string>>)
    requires |w| == SLOTS && Idle(ops)
    requires Kept(ops, 0) == w[0] && Kept(ops, 1) == w[1] && Kept(ops, 2) == w[2] && Kept(ops, 3) == w[3]
    requires Kept(ops, 4) == w[4] && Kept(ops, 5) == w[5] && Kept(ops, 6) == w[6] && Kept(ops, 7) == w[7]
    requires Kept(ops, 8) == w[8] && Kept(ops, 9) == w[9] && Kept(ops, 10) == w[10] && Kept(ops, 11) == w[11]
    requires Kept(ops, 12) == w[12] && Kept(ops, 13) == w[13]
    ensures Holds(ops, w)
  {
    hide Kept, Idle;
  }

  lemma DemandedHolds(c: Control, c0: Control, s: Status, es: seq<Entry>, cfg: Config)
    requires Idle(c.ops) && !StartsReboot(c.ops, es) && Begins(c, c0, s, es)
    ensures Holds(Demanded(c, s, es, cfg).ops, Wishes(c0, s, es, cfg))
  {
    hide StartsReboot, Begins, Demanded, WantsPin, WantsEnd, WantsDial, WantsAnswer, FirstIn, NoteAfter, First,
         CommandOf, Query, Assign, Ensure, Conditional, ForEntry, Wishes, When, Or, Kept, Holds, Idle;
    var r := Demanded(c, s, es, cfg);
    DemandedSlots(c, s, es, cfg);
    WishesFrom(c, c0, s, es, cfg);
    WishesAreHeld(r.ops, Wishes(c0, s, es, cfg), c, s, es, cfg);
  }

  /** What the slots are after all steps, given what they were before. */
  predicate SlotsAre(r: Slots, c: Control, s: Status, es: seq<Entry>, cfg: Config) {
    && r[0] == c.ops[0] && r[1] == c.ops[1] && r[6] == c.ops[6] && r[7] == c.ops[7]
    && r[2] == (if cfg.power == "off" && !s.link.poweredDown then Ensure(c.ops[2], "") else c.ops[2])
    && r[3] == (if cfg.ring.Some? && c.ringCount != s.counts.ring then New(cfg.ring.value, "") else c.ops[3])
    && r[4] == (if WantsPin(s, cfg, c.pin) then New(cfg.pin, "") else c.ops[4])
    && r[5] == (if s.sim.cpin == None then Ensure(c.ops[5], "") else c.ops[5])
    && r[8] == Query(c.ops[8], es) && r[9] == Assign(c.ops[9], es)
    && r[10] == (if WantsEnd(c, s, cfg) then Ensure(c.ops[10], "") else c.ops[10])
    && r[11] == (if s.sim.cpin == Some("READY") then Conditional(c.ops[11], !s.calls.upToDate) else c.ops[11])
    && r[12] == (if WantsDial(c, s, cfg) then Ensure(c.ops[12], Number(cfg)) else c.ops[12])
    && r[13] == (if WantsAnswer(s, cfg) then Ensure(c.ops[13], "") else c.ops[13])
  }

  lemma WishesAreHeld(r: Slots, w: seq<Option<string>>, c: Control, s: Status, es: seq<Entry>, cfg: Config)
    requires SlotsAre(r, c, s, es, cfg) && WishesAre(w, c, s, es, cfg) && Idle(r)
    ensures Holds(r, w)
  {
    hide SlotsAre, Kept, Holds, Idle, When, Or, WantsPin, WantsEnd, WantsDial, WantsAnswer, ForEntry;
    FirstHalfHeld(r, w, c, s, es, cfg);
    SecondHalfHeld(r, w, c, s, es, cfg);
    AllFourteen(r, w);
  }

  lemma FirstHalfHeld(r: Slots, w: seq<Option<string>>, c: Control, s: Status, es: seq<Entry>, cfg: Config)
    requires SlotsAre(r, c, s, es, cfg) && WishesAre(w, c, s, es, cfg)
    ensures Kept(r, 0) == w[0] && Kept(r, 1) == w[1] && Kept(r, 2) == w[2] && Kept(r, 3) == w[3]
    ensures Kept(r, 4) == w[4] && Kept(r, 5) == w[5] && Kept(r, 6) == w[6] && Kept(r, 7) == w[7]
  {
    hide WantsPin, WantsEnd, WantsDial, WantsAnswer, CommandOf, Query, Assign, Ensure, Conditional, ForEntry, When, Or, Kept;
    OtherSlots(r, c.ops, 2, cfg.power == "off" && !s.link.poweredDown, "");
    OtherSlots(r, c.ops, 3, cfg.ring.Some? && c.ringCount != s.counts.ring, cfg.ring.GetOr(""));
    OtherSlots(r, c.ops, 4, WantsPin(s, cfg, c.pin), cfg.pin);
    OtherSlots(r, c.ops, 5, s.sim.cpin == None, "");
    RemainingSlots(r, c.ops, s);
  }

  lemma SecondHalfHeld(r: Slots, w: seq<Option<string>>, c: Control, s: Status, es: seq<Entry>, cfg: Config)
    requires SlotsAre(r, c, s, es, cfg) && WishesAre(w, c, s, es, cfg)
    ensures Kept(r, 8) == w[8] && Kept(r, 9) == w[9] && Kept(r, 10) == w[10]
    ensures Kept(r, 11) == w[11] && Kept(r, 12) == w[12] && Kept(r, 13) == w[13]
  {
    hide WantsPin, WantsEnd, WantsDial, WantsAnswer, CommandOf, Query, Assign, Ensure, Conditional, ForEntry, When, Or, Kept;
    SettingSlots(r, c.ops, es);
    OtherSlots(r, c.ops, 10, WantsEnd(c, s, cfg), "");
    OtherSlots(r, c.ops, 12, WantsDial(c, s, cfg), Number(cfg));
    OtherSlots(r, c.ops, 13, WantsAnswer(s, cfg), "");
    RemainingSlots(r, c.ops, s);
  }

  lemma WantsAgree(c: Control, c0: Control, s: Status, cfg: Config)
    requires c.outbound == c0.outbound
    ensures WantsEnd(c, s, cfg) == WantsEnd(c0, s, cfg) && WantsDial(c, s, cfg) == WantsDial(c0, s, cfg)
    ensures WantsDial(c, s, cfg) ==> cfg.call.Some?
  {
  }

  lemma RemainingSlots(r: Slots, c: Slots, s: Status)
    requires r[0] == c[0] && r[1] == c[1] && r[6] == c[6] && r[7] == c[7]
    requires r[11] == if s.sim.cpin == Some("READY") then Conditional(c[11], !s.calls.upToDate) else c[11]
    ensures Kept(r, 0) == When(c[0].Op?, "AT") && Kept(r, 1) == Kept(c, 1) && Kept(r, 6) == Kept(c, 6) && Kept(r, 7) == Kept(c, 7)
    ensures Kept(r, 11) == if s.sim.cpin == Some("READY") then When(!s.calls.upToDate, "AT+CLCC") else Kept(c, 11)
  {
  }

  lemma NotLooking(c: Control, c0: Control, s: Status, es: seq<Entry>, cfg: Config)
    requires Idle(c0.ops) && !Looks(c0.ops, s) && c == (if Early(Checked0(c0, s), s) then Checked0(c0, s) else EchoChecked(Checked0(c0, s), s))
    ensures Holds(c.ops, Wishes(c0, s, es, cfg))
  {
    hide Restarts, WantsPin, WantsCall, FirstIn, CommandOf, ForEntry, WantsEnd, WantsDial, WantsAnswer;
    assert !Restarts(c0.ops, s, es) by { RestartsMeans(c0.ops, s, es); }
    forall k: Kind | c.ops[k].Op? ensures k == 0 ==> CommandOf(k, c.ops[k]) == "AT"
                                  ensures k == 1 ==> CommandOf(k, c.ops[k]) == "ATE0" {
      CommandTexts(c.ops[k]);
    }
    assert forall k: Kind :: k >= 2 ==> c.ops[k] == c0.ops[k];
  }

  /** The readiness check, with the result of the last command already considered. */
  function Checked0(c: Control, s: Status): Control {
    c.(ops := c.ops[0 := Conditional(c.ops[0], !s.link.atOk)])
  }

  /** For every state with nothing in flight once the last result was considered: the pass turns the
      wishes, and only these, into pending operations. */
  lemma PassHoldsWishes(c: Control, s: Status, es: seq<Entry>, cfg: Config)
    requires Idle(Completed(s.cmd.ok, c.ops))
    ensures Holds(Prepared(c, s, es, cfg).ops, Wishes(c.(ops := Completed(s.cmd.ok, c.ops)), s, es, cfg))
  {
    hide Completed, Wishes, Demanded, Restarts, StartsReboot, Holds;
    var c0 := c.(ops := Completed(s.cmd.ok, c.ops));
    var c1 := Checked(c, s);
    var c2 := EchoChecked(c1, s);
    PreparedIs(c, s, es, cfg);
    assert c1 == Checked0(c0, s);
    if !Looks(c0.ops, s) {
      NotLooking(Prepared(c, s, es, cfg), c0, s, es, cfg);
    } else {
      RestartsMeans(c0.ops, s, es);
      SameStart(c2.ops, c0.ops, es);
      if StartsReboot(c2.ops, es) {
        RestartedIs(c2, s, es, cfg);
        DemandedHolds(c2.(ops := NO_OPERATIONS[7 := New("", "")], pin := ""), c0, s, es, cfg);
      } else {
        DemandedHolds(c2, c0, s, es, cfg);
      }
    }
  }

  lemma SameStart(a: Slots, b: Slots, es: seq<Entry>)
    requires a[7] == b[7]
    ensures StartsReboot(a, es) == StartsReboot(b, es)
  {
  }

  lemma {:induction false} FirstWishIsFirst(ops: seq<Slot>, wishes: seq<Option<string>>)
    requires |ops| == |wishes| && forall k :: 0 <= k < |ops| ==> !In(ops[k], Submitted)
    requires forall k :: 0 <= k < |ops| ==> ops[k].Op? == wishes[k].Some?
    ensures var k := First(ops, Pending);
            FirstWish(wishes) == if k == |ops| then None else wishes[k]
  {
    if ops != [] {
      assert forall k :: 0 <= k < |ops[1..]| ==> ops[1..][k] == ops[k + 1] && wishes[1..][k] == wishes[k + 1];
      FirstWishIsFirst(ops[1..], wishes[1..]);
    }
  }

  /** The command that a pass sends is the first of its wishes. */
  lemma PassSendsFirstWish(c: Control, s: Status, es: seq<Entry>, cfg: Config)
    requires Idle(Completed(s.cmd.ok, c.ops))
    ensures var sent := SentBy(Prepared(c, s, es, cfg));
            FirstWish(Wishes(c.(ops := Completed(s.cmd.ok, c.ops)), s, es, cfg))
              == if sent.Some? then Some(sent.value.command) else None
  {
    hide Completed, Wishes, Prepared, FirstWish, First, CommandOf;
    PassHoldsWishes(c, s, es, cfg);
    var ops := Prepared(c, s, es, cfg).ops;
    InFlightMeans(ops);
    FirstWishIsFirst(ops, Wishes(c.(ops := Completed(s.cmd.ok, c.ops)), s, es, cfg));
  }

  /** With no operation under way, or none but a finished one, nothing is in flight. */
  lemma FinishedIsIdle(ok: bool, ops: Slots)
    ensures Idle(ops) ==> Completed(ok, ops) == ops
    ensures forall k: Kind :: In(ops[k], Submitted) && Idle(ops[k := Absent]) && ok ==> Completed(ok, ops) == ops[k := Absent]
  {
    InFlightMeans(ops);
    forall k: Kind | In(ops[k], Submitted) && Idle(ops[k := Absent]) && ok ensures Completed(ok, ops) == ops[k := Absent] {
      assert forall j: Kind :: j != k ==> ops[j] == ops[k := Absent][j];
      assert First(ops, Submitted) == k;
    }
  }

  // ---- cause and effect in terms of the configuration ----

  /** The modem is ready, and nothing else is to be done: all settings are confirmed, no operation is
      under way. */
  predicate AtEase(c: Control, s: Status, es: seq<Entry>, cfg: Config) {
    && c.ops == NO_OPERATIONS && s.link == Link(true, true, true, false)
    && (forall i :: 0 <= i < |es| ==> es[i].state == Confirmed)
    && cfg.power != "off" && cfg.ring.None?
  }

  lemma {:induction false} ConfirmedNeedsNothing(es: seq<Entry>, state: EntryState)
    requires state != Confirmed && forall i :: 0 <= i < |es| ==> es[i].state == Confirmed
    ensures ForEntry(es, state).None?
  {
    if es != [] {
      assert es[0].state == Confirmed;
      ConfirmedNeedsNothing(es[1..], state);
    }
  }

  lemma AtEaseSends(c: Control, s: Status, es: seq<Entry>, cfg: Config)
    requires AtEase(c, s, es, cfg)
    ensures var sent := SentBy(Prepared(c, s, es, cfg));
            (if sent.Some? then Some(sent.value.command) else None)
              == if WantsPin(s, cfg, c.pin) then Some("AT+CPIN=" + cfg.pin)
                 else if s.sim.cpin == None then Some("AT+CPIN?")
                 else if WantsEnd(c, s, cfg) then Some("ATH")
                 else if s.sim.cpin == Some("READY") && !s.calls.upToDate then Some("AT+CLCC")
                 else if WantsDial(c, s, cfg) then Some("ATD" + cfg.call.value.number + ";")
                 else if WantsAnswer(s, cfg) then Some("ATA")
                 else None
  {
    hide Prepared, SentBy, Wishes, FirstWish, Completed, ForEntry;
    FinishedIsIdle(s.cmd.ok, c.ops);
    PassSendsFirstWish(c, s, es, cfg);
    ConfirmedNeedsNothing(es, Unknown);
    ConfirmedNeedsNothing(es, Mismatch);
    WishesAtEase(c, s, es, cfg);
  }

  /** The wishes at ease, one by one. */
  predicate CalmWishes(w: seq<Option<string>>, c: Control, s: Status, cfg: Config) {
    && |w| == SLOTS && (forall k: Kind :: k < 4 || 6 <= k < 10 ==> w[k].None?)
    && w[4] == When(WantsPin(s, cfg, c.pin), "AT+CPIN=" + cfg.pin) && w[5] == When(s.sim.cpin == None, "AT+CPIN?")
    && w[10] == When(WantsEnd(c, s, cfg), "ATH")
    && w[11] == When(s.sim.cpin == Some("READY") && !s.calls.upToDate, "AT+CLCC")
    && w[12] == When(WantsDial(c, s, cfg), "ATD" + Number(cfg) + ";") && w[13] == When(WantsAnswer(s, cfg), "ATA")
  }

  lemma AtEaseIsCalm(c: Control, s: Status, es: seq<Entry>, cfg: Config)
    requires AtEase(c, s, es, cfg) && ForEntry(es, Unknown).None? && ForEntry(es, Mismatch).None?
    ensures CalmWishes(Wishes(c, s, es, cfg), c, s, cfg)
  {
    hide ForEntry, WantsPin, WantsEnd, WantsDial, WantsAnswer, CommandOf, Wishes;
    assert !Restarts(c.ops, s, es);
    WishesWithout(c, c, s, es, cfg);
  }

  lemma WishesAtEase(c: Control, s: Status, es: seq<Entry>, cfg: Config)
    requires AtEase(c, s, es, cfg) && ForEntry(es, Unknown).None? && ForEntry(es, Mismatch).None?
    ensures FirstWish(Wishes(c, s, es, cfg))
         == if WantsPin(s, cfg, c.pin) then Some("AT+CPIN=" + cfg.pin)
            else if s.sim.cpin == None then Some("AT+CPIN?")
            else if WantsEnd(c, s, cfg) then Some("ATH")
            else if s.sim.cpin == Some("READY") && !s.calls.upToDate then Some("AT+CLCC")
            else if WantsDial(c, s, cfg) then Some("ATD" + Number(cfg) + ";")
            else if WantsAnswer(s, cfg) then Some("ATA")
            else None
  {
    hide ForEntry, WantsPin, WantsEnd, WantsDial, WantsAnswer, CommandOf, Wishes, FirstWish, AtEase;
    var w := Wishes(c, s, es, cfg);
    AtEaseIsCalm(c, s, es, cfg);
    if WantsPin(s, cfg, c.pin) { FirstWishIs(w, 4); }
    else if s.sim.cpin == None { FirstWishIs(w, 5); }
    else if WantsEnd(c, s, cfg) { FirstWishIs(w, 10); }
    else if s.sim.cpin == Some("READY") && !s.calls.upToDate { FirstWishIs(w, 11); }
    else if WantsDial(c, s, cfg) { FirstWishIs(w, 12); }
    else if WantsAnswer(s, cfg) { FirstWishIs(w, 13); }
    else { NoWish(w); }
  }

  /** The first wish, from both ends. */
  lemma {:induction false} FirstWishIs(w: seq<Option<string>>, k: nat)
    requires k < |w| && w[k].Some? && forall j :: 0 <= j < k ==> w[j].None?
    ensures FirstWish(w) == w[k]
  {
    if k > 0 {
      assert forall j :: 0 <= j < |w[1..]| ==> w[1..][j] == w[j + 1];
      FirstWishIs(w[1..], k - 1);
    }
  }

  lemma {:induction false} NoWish(w: seq<Option<string>>)
    requires forall j :: 0 <= j < |w| ==> w[j].None?
    ensures FirstWish(w) == None
  {
    if w != [] {
      assert forall j :: 0 <= j < |w[1..]| ==> w[1..][j] == w[j + 1];
      NoWish(w[1..]);
    }
  }

  // ---- what a pass notes ----

  /** The pin that was sent last, the number of rings that were answered, and the call that was placed. */
  lemma PassNotes(c: Control, s: Status, es: seq<Entry>, cfg: Config)
    requires Idle(Completed(s.cmd.ok, c.ops))
    ensures var c0, r := c.(ops := Completed(s.cmd.ok, c.ops)), Prepared(c, s, es, cfg);
            var restarts := Restarts(c0.ops, s, es);
            var pin := if restarts then "" else c.pin;
            if Looks(c0.ops, s) then
              && r.pin == (if WantsPin(s, cfg, pin) then cfg.pin else pin)
              && r.ringCount == (if cfg.ring.Some? then s.counts.ring else c.ringCount)
              && r.outbound == NoteAfter(if restarts then c0.(ops := NO_OPERATIONS) else c0, s, cfg)
            else r.pin == c.pin && r.ringCount == c.ringCount && r.outbound == c.outbound
  {
    hide Completed, Demanded, Restarts, StartsReboot, NoteAfter, WantsPin;
    var c0 := c.(ops := Completed(s.cmd.ok, c.ops));
    var c1 := Checked(c, s);
    var c2 := EchoChecked(c1, s);
    PreparedIs(c, s, es, cfg);
    assert c1 == Checked0(c0, s);
    if Looks(c0.ops, s) {
      RestartsMeans(c0.ops, s, es);
      SameStart(c2.ops, c0.ops, es);
      if StartsReboot(c2.ops, es) {
        var c3 := c2.(ops := NO_OPERATIONS[7 := New("", "")], pin := "");
        RestartedIs(c2, s, es, cfg);
        DemandedSlots(c3, s, es, cfg);
        NoteDependsOn(c0.(ops := NO_OPERATIONS), c3, s, cfg);
      } else {
        DemandedSlots(c2, s, es, cfg);
        NoteDependsOn(c0, c2, s, cfg);
      }
    }
  }

  /** A refused pin is not sent again; instead, the number of attempts that are left is asked for. */
  lemma RefusedPinAsksForCount(c: Control, s: Status, es: seq<Entry>, cfg: Config, pin: string)
    requires AtEase(c.(ops := NO_OPERATIONS), s, es, cfg) && c.ops == NO_OPERATIONS[4 := Op(Submitted, pin, "")]
    requires s.cmd.cmeError.Some? && !s.cmd.ok && s.sim.cpin.None?
    ensures var r := Prepared(c, s, es, cfg);
            SentBy(r) == Some(Sent(6, "AT+QPINC?")) && r.ops[4].Absent?
  {
    hide First, Telephony, Maintained, Demanded, Prepared, Chosen, WantsEnd, WantsCall, NoteAfter, Idle;
    RefusedPinIsMaintained(c, s, es, cfg, pin);
    RefusedPassIs(c, s, es, cfg, pin);
    var m := Maintained(c, s, es, cfg);
    TelephonySlots(m, s, cfg);
    PendingIsIdle(m.ops);
    OnlyFirstCounts(Telephony(m, s, cfg).ops, 6);
  }

  lemma PendingIsIdle(ops: Slots)
    requires ops == NO_OPERATIONS[6 := New("", "")]
    ensures Idle(ops)
  {
  }

  lemma RefusedPassIs(c: Control, s: Status, es: seq<Entry>, cfg: Config, pin: string)
    requires AtEase(c.(ops := NO_OPERATIONS), s, es, cfg) && c.ops == NO_OPERATIONS[4 := Op(Submitted, pin, "")] && !s.cmd.ok
    ensures Prepared(c, s, es, cfg) == Telephony(Maintained(c, s, es, cfg), s, cfg)
  {
    hide First, Telephony, Maintained, Demanded, Prepared;
    PreparedIs(c, s, es, cfg);
    DemandedIs(c, s, es, cfg);
    var c2 := EchoChecked(Checked(c, s), s);
    assert c2.ops == c.ops;
    assert c2 == c;
  }

  lemma RefusedPinIsMaintained(c: Control, s: Status, es: seq<Entry>, cfg: Config, pin: string)
    requires AtEase(c.(ops := NO_OPERATIONS), s, es, cfg) && c.ops == NO_OPERATIONS[4 := Op(Submitted, pin, "")]
    requires s.cmd.cmeError.Some?
    ensures Maintained(c, s, es, cfg).ops == NO_OPERATIONS[6 := New("", "")]
  {
    hide RebootNeeded, FirstIn;
    ConfirmedIsQuiet(es);
    assert c.ops[8 := Absent][9 := Absent] == c.ops;
    var c1 := QcfgApplied(c, es, s.cmd.error);
    assert c1 == c;
    hide QcfgApplied;
    var c2 := PinApplied(c, cfg.pin, true, s.sim.cpin);
    assert c2.ops == NO_OPERATIONS[6 := New("", "")];
    hide PinApplied;
    assert c2.ops[2 := Absent] == c2.ops;
  }

  lemma ConfirmedIsQuiet(es: seq<Entry>)
    requires forall i :: 0 <= i < |es| ==> es[i].state == Confirmed
    ensures !RebootNeeded(es) && FirstIn(es, Unknown).None? && FirstIn(es, Mismatch).None?
  {
  }

  lemma OnlyFirstCounts(ops: Slots, k: Kind)
    requires Idle(ops) && In(ops[k], Pending) && forall j: Kind :: j < k ==> ops[j].Absent?
    ensures Chosen(ops) == Some(k)
  {
    InFlightMeans(ops);
    PendingMeans(ops);
  }

  /** After a timeout the driver first makes sure that the modem listens: unless it starts a reboot, the
      next command is AT. */
  lemma TimeoutIsFollowedByAT(d: Driver, cfg: Config)
    requires d.status.cmd.pending.Some?
    requires var d' := Cancelled(d); !Restarts(d'.control.ops, d'.status, d'.entries)
    ensures var sent := SentAt(Cancelled(d), Pass([], cfg));
            sent.Some? && sent.value.command == "AT"
  {
    hide Prepared, Wishes, FirstWish, Completed, Restarts, ReportedCall, First;
    var d' := Cancelled(d);
    assert Idle(d'.control.ops) && d'.control.ops == d'.control.(ops := d'.control.ops).ops;
    FinishedIsIdle(d'.status.cmd.ok, d'.control.ops);
    PassSendsFirstWish(d'.control, d'.status, d'.entries, cfg);
    PassWithoutLines(d', cfg);
    var w := Wishes(d'.control, d'.status, d'.entries, cfg);
    FirstWishOfUnready(d'.control, d'.status, d'.entries, cfg);
    FirstWishIs(w, 0);
  }

  lemma FirstWishOfUnready(c: Control, s: Status, es: seq<Entry>, cfg: Config)
    requires !s.link.atOk && !Restarts(c.ops, s, es)
    ensures Wishes(c, s, es, cfg)[0] == Some("AT")
  {
    hide Restarts, ForEntry, CommandOf;
  }

  // ---- calls are ended, answered and placed on demand only ----

  predicate ConcernsCalls(command: string) { command == "ATH" || command == "ATA" || "ATD" <= command }

  /** The commands for calls that an event asks for. */
  function DemandedBy(d: Driver, e: Event): set<string> {
    if !e.Pass? then {}
    else
      var s := ApplyLines(d.status, d.entries, e.lines).0;
      (if WantsEnd(d.control, s, e.cfg) then {"ATH"} else {})
      + (if WantsAnswer(s, e.cfg) then {"ATA"} else {})
      + (if WantsDial(d.control, s, e.cfg) then {"ATD" + e.cfg.call.value.number + ";"} else {})
  }

  /** The commands for calls that wait or are in flight are among the given ones. */
  predicate OnlyWaiting(ops: Slots, demanded: set<string>) {
    && (ops[10].Op? ==> "ATH" in demanded) && (ops[13].Op? ==> "ATA" in demanded)
    && (ops[12].Op? ==> "ATD" + ops[12].arg + ";" in demanded)
    && (ops[3].Op? ==> !ConcernsCalls(ops[3].arg))
  }

  predicate RingsOnly(e: Event) { e.Pass? && e.cfg.ring.Some? ==> !ConcernsCalls(e.cfg.ring.value) }

  /** Every command for a call was asked for by the event that sends it, or by an earlier one. */
  predicate AllOnDemand(d: Driver, events: seq<Event>, demanded: set<string>)
    decreases |events|
  {
    events != [] ==>
      var now := demanded + DemandedBy(d, events[0]);
      var sent := SentAt(d, events[0]);
      && (sent.Some? && ConcernsCalls(sent.value.command) ==> sent.value.command in now)
      && AllOnDemand(Step(d, events[0]), events[1..], now)
  }

  lemma CallCommands(op: Slot, k: Kind)
    requires op.Op?
    ensures ConcernsCalls(CommandOf(k, op)) ==> k == 10 || k == 12 || k == 13 || (k == 3 && ConcernsCalls(op.arg))
  {
    hide CommandOf;
    CommandTexts(op);
    var c := CommandOf(k, op);
    if k == 0 {
      assert |c| == 2;
    } else if k == 1 {
      assert c[2] == 'E';
    } else if k == 2 || k == 4 || k == 5 || k == 6 || k == 7 || k == 8 || k == 9 || k == 11 {
      assert c[2] == '+';
    }
  }

  lemma WaitingSubset(a: Slots, b: Slots, demanded: set<string>)
    requires OnlyWaiting(a, demanded)
    requires forall k: Kind :: k in {3, 10, 12, 13} ==> b[k].Absent? || (a[k].Op? && b[k].arg == a[k].arg)
    ensures OnlyWaiting(b, demanded)
  {
  }

  lemma MaintainedWaiting(c: Control, s: Status, es: seq<Entry>, cfg: Config, demanded: set<string>)
    requires OnlyWaiting(c.ops, demanded)
    ensures OnlyWaiting(Maintained(c, s, es, cfg).ops, demanded) && Maintained(c, s, es, cfg).outbound == c.outbound
  {
    hide RebootNeeded, FirstIn, RetryFailed, Query, Assign, Ensure, ConcernsCalls;
  }

  lemma TelephonyWaiting(c: Control, s: Status, cfg: Config, demanded: set<string>)
    requires OnlyWaiting(c.ops, demanded) && (cfg.ring.Some? ==> !ConcernsCalls(cfg.ring.value))
    requires WantsEnd(c, s, cfg) ==> "ATH" in demanded
    requires WantsAnswer(s, cfg) ==> "ATA" in demanded
    requires WantsDial(c, s, cfg) ==> "ATD" + cfg.call.value.number + ";" in demanded
    ensures OnlyWaiting(Telephony(c, s, cfg).ops, demanded)
  {
    hide Telephony, WantsEnd, WantsCall, NoteAfter, Idle, ConcernsCalls, Conditional;
    TelephonySlots(c, s, cfg);
    WantsAgree(c, c, s, cfg);
    assert WantsDial(c, s, cfg) ==> Number(cfg) == cfg.call.value.number;
  }

  lemma PreparedWaiting(c: Control, s: Status, es: seq<Entry>, cfg: Config, demanded: set<string>)
    requires OnlyWaiting(c.ops, demanded) && (cfg.ring.Some? ==> !ConcernsCalls(cfg.ring.value))
    requires WantsEnd(c, s, cfg) ==> "ATH" in demanded
    requires WantsAnswer(s, cfg) ==> "ATA" in demanded
    requires WantsDial(c, s, cfg) ==> "ATD" + cfg.call.value.number + ";" in demanded
    ensures OnlyWaiting(Prepared(c, s, es, cfg).ops, demanded)
  {
    hide Telephony, Maintained, Prepared, First, WantsEnd, WantsCall, ConcernsCalls, OnlyWaiting;
    var c1 := Checked(c, s);
    var c2 := EchoChecked(c1, s);
    PreparedIs(c, s, es, cfg);
    WaitingSubset(c.ops, c1.ops, demanded);
    WaitingSubset(c.ops, c2.ops, demanded);
    if !Early(c1, s) && s.link.echoDisabled {
      DemandedIs(c2, s, es, cfg);
      MaintainedWaiting(c2, s, es, cfg, demanded);
      var m := Maintained(c2, s, es, cfg);
      WantsAgree(m, c, s, cfg);
      WantsAgree(c, c, s, cfg);
      TelephonyWaiting(m, s, cfg, demanded);
    }
  }

  lemma StepOnDemand(d: Driver, e: Event, demanded: set<string>)
    requires OnlyWaiting(d.control.ops, demanded) && RingsOnly(e)
    ensures var now, sent := demanded + DemandedBy(d, e), SentAt(d, e);
            && OnlyWaiting(Step(d, e).control.ops, now)
            && (sent.Some? && ConcernsCalls(sent.value.command) ==> sent.value.command in now)
  {
    hide ApplyLines, Prepared, WantsEnd, WantsCall, ConcernsCalls, First, ReportedCall, AfterSend;
    var now := demanded + DemandedBy(d, e);
    WaitingGrows(d.control.ops, demanded, now);
    if e.Pass? {
      var s := ApplyLines(d.status, d.entries, e.lines);
      PreparedWaiting(d.control, s.0, s.1, e.cfg, now);
      LaunchWaiting(Prepared(d.control, s.0, s.1, e.cfg), now);
    } else if e.Timeout? {
      WaitingSubset(d.control.ops, Step(d, e).control.ops, now);
    }
  }

  lemma WaitingGrows(ops: Slots, a: set<string>, b: set<string>)
    requires OnlyWaiting(ops, a) && a <= b
    ensures OnlyWaiting(ops, b)
  {
  }

  lemma LaunchWaiting(c: Control, demanded: set<string>)
    requires OnlyWaiting(c.ops, demanded)
    ensures OnlyWaiting(Launch(c).ops, demanded)
    ensures SentBy(c).Some? && ConcernsCalls(SentBy(c).value.command) ==> SentBy(c).value.command in demanded
  {
    hide First, CommandOf, ConcernsCalls;
    if Chosen(c.ops).Some? {
      var k := Chosen(c.ops).value;
      CallCommands(c.ops[k], k);
      CommandTexts(c.ops[k]);
    }
  }

  /** In every run, an ATH, ATA or ATD is only sent if a pass has found a call to end, to answer or to
      place, with this number. */
  lemma {:induction false} CallsOnDemandOnly(d: Driver, events: seq<Event>, demanded: set<string>)
    requires OnlyWaiting(d.control.ops, demanded) && forall e :: e in events ==> RingsOnly(e)
    ensures AllOnDemand(d, events, demanded)
    decreases |events|
  {
    hide OnlyWaiting, Step, SentAt, DemandedBy, RingsOnly, ConcernsCalls;
    if events != [] {
      StepOnDemand(d, events[0], demanded);
      CallsOnDemandOnly(Step(d, events[0]), events[1..], demanded + DemandedBy(d, events[0]));
    }
  }

  // ---- the dialled text ----

  function DialCommands(sent: seq<Sent>): nat {
    if sent == [] then 0 else (if "ATD" <= sent[0].command then 1 else 0) + DialCommands(sent[1..])
  }

  /** While the configuration keeps one accepted call, a command that dials is sent at most once, counted
      by its text. */
  lemma DialTextAtMostOnce(entries: seq<Entry>, events: seq<Event>, number: string)
    requires forall e :: e in events ==> Dials(e, number) && RingsOnly(e)
    ensures DialCommands(SentDuring(Initial(entries), events)) <= 1
  {
    hide RingsOnly, Dials, SentDuring;
    var d := Initial(entries);
    assert OnlyWaiting(d.control.ops, {});
    DialTextsAreDials(d, events, {});
    DialsAtMostOnce(d, events, number, 0);
  }

  lemma {:induction false} DialTextsAreDials(d: Driver, events: seq<Event>, demanded: set<string>)
    requires OnlyWaiting(d.control.ops, demanded) && forall e :: e in events ==> RingsOnly(e)
    ensures DialCommands(SentDuring(d, events)) <= CountOf(SentDuring(d, events), INITIATE_CALL)
    decreases |events|
  {
    hide OnlyWaiting, Step, SentAt, DemandedBy, RingsOnly;
    if events != [] {
      StepOnDemand(d, events[0], demanded);
      SentDialIsDial(d, events[0], demanded);
      DialTextsAreDials(Step(d, events[0]), events[1..], demanded + DemandedBy(d, events[0]));
      var sent, later := SentAt(d, events[0]), SentDuring(Step(d, events[0]), events[1..]);
      if sent.Some? {
        assert ([sent.value] + later)[1..] == later;
      } else {
        assert [] + later == later;
      }
    }
  }

  lemma SentDialIsDial(d: Driver, e: Event, demanded: set<string>)
    requires OnlyWaiting(d.control.ops, demanded) && RingsOnly(e)
    ensures SentAt(d, e).Some? && "ATD" <= SentAt(d, e).value.command ==> SentAt(d, e).value.kind == INITIATE_CALL
  {
    hide ApplyLines, Prepared, WantsEnd, WantsCall, First, ReportedCall, AfterSend, CommandOf;
    if e.Pass? {
      var s := ApplyLines(d.status, d.entries, e.lines);
      var now := demanded + DemandedBy(d, e);
      WaitingGrows(d.control.ops, demanded, now);
      PreparedWaiting(d.control, s.0, s.1, e.cfg, now);
      var r := Prepared(d.control, s.0, s.1, e.cfg);
      if Chosen(r.ops).Some? {
        var k := Chosen(r.ops).value;
        CallCommands(r.ops[k], k);
        CommandTexts(r.ops[k]);
        assert "ATH"[2] == 'H' && "ATA"[2] == 'A' && "ATD"[2] == 'D';
      }
    }
  }
}
