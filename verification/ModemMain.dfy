/** The power states of the modem and the loop that drives power and AT protocol until both settle
    (src/driver/modem/pinephone/main.cc). */
module ModemMains {
  import opened Options
  import opened ReadBuffers
  import opened Qcfgs
  import opened Statuses
  import opened Controls
  import opened Drivers
  import opened Coherence
  import opened Settling
  import Powers

  datatype Mode = Unknown | PoweringOn | AtProtocol | AtBusy | AtShutdown | AtGraceDelay
                | PoweringOff | PowerOff | PowerOn

  /** The configuration, with the power attribute as the AT-protocol driver reads it in `at`, and
      as a boolean in `power`. */
  datatype MainConfig = MainConfig(at: Config, power: Option<bool>, useAtProtocol: bool)

  const MAX_LINE_LEN: nat := 256

  // ---- a pass makes progress only finitely often ----

  lemma AtMostOneStays(d: Driver, lines: seq<string>, cfg: Config)
    requires AtMostOneSubmitted(d.control.ops)
    ensures AtMostOneSubmitted(Applied(d, lines, cfg).control.ops)
  {
    var heard := ApplyLines(d.status, d.entries, lines);
    var r := PreparedFor(d, lines, cfg);
    PreparedKeeps(d.control, heard.0, heard.1, cfg);
    InFlightMeans(r.ops);
    hide ApplyLines, Prepared, First, ReportedCall;
  }

  lemma {:induction false} DrainWithoutData(max: nat, buf: string, chunks: seq<string>)
    requires |buf| <= 2 * max && BytesLeft(Drain(max, buf, chunks).2) == BytesLeft(chunks)
    ensures Drain(max, buf, chunks).0 == []
  {
  }

  /** A pass that changes the protocol state has read something, or has submitted a command; and
      after a pass that only submitted a command, the next one needs data to change anything. */
  lemma ProgressIsBounded(d: Driver, max: nat, buf: string, chunks: seq<string>, cfg: Config)
    requires |buf| <= 2 * max && AtMostOneSubmitted(d.control.ops)
    ensures var drained := Drain(max, buf, chunks);
            var d' := Applied(d, drained.0, cfg);
            || BytesLeft(drained.2) < BytesLeft(chunks)
            || (SentAt(d, Pass([], cfg)).None? && d'.status == d.status && SentAt(d', Pass([], cfg)).None?)
            || (SentAt(d, Pass([], cfg)).Some? && SentAt(d', Pass([], cfg)).None?)
  {
    var drained := Drain(max, buf, chunks);
    if BytesLeft(drained.2) == BytesLeft(chunks) {
      DrainWithoutData(max, buf, chunks);
      PassWithoutLines(d, cfg);
      var d' := Step(d, Pass([], cfg));
      if SentAt(d, Pass([], cfg)).Some? {
        NothingAfterSend(d, cfg);
      } else {
        SilentPassRests(d, cfg);
        hide Prepared, Settled, First;
        AtRestIsFixed(d', cfg);
      }
    }
  }

  // ---- order of the power states ----

  /** Number of power states that can still be entered while the configuration stays the same. */
  function Rank(mode: Mode, power: Option<bool>): nat {
    var falling := match mode
      case AtShutdown => 3
      case AtGraceDelay => 2
      case PoweringOff => 1
      case _ => 0;
    if power == Some(true) then
      match mode
      case PoweringOn => 1
      case AtProtocol => 0
      case AtBusy => 0
      case PowerOn => 0
      case _ => 2 + falling
    else
      match mode
      case PoweringOn => 5
      case AtProtocol => 4
      case AtBusy => 4
      case PowerOn => 4
      case _ => falling
  }

  /** The power states that `_apply_power_state` can lead to. */
  predicate LeadsTo(a: Mode, b: Mode, power: Option<bool>) {
    a == b ||
    match a
    case Unknown => b == PoweringOn && power == Some(true)
    case PowerOff => b == PoweringOn && power == Some(true)
    case PowerOn => b == PoweringOff && power == Some(false)
    case PoweringOn =>
      b == AtProtocol || b == PowerOn || (power == Some(false) && (b == AtShutdown || b == PoweringOff))
    case AtProtocol => power == Some(false) && (b == AtShutdown || b == PoweringOff)
    case AtBusy => power == Some(false) && (b == AtShutdown || b == PoweringOff)
    case AtShutdown => b == AtGraceDelay || b == PoweringOff
    case AtGraceDelay => b == PoweringOff
    case PoweringOff => b == PowerOff
  }

  lemma LeadsForward(a: Mode, b: Mode, power: Option<bool>)
    requires LeadsTo(a, b, power)
    ensures a == b || Rank(b, power) < Rank(a, power)
  {
  }

  function PowerStepsLeft(mode: Mode, s: Powers.State): nat {
    if mode == PoweringOn then Powers.StepsLeft(true, s)
    else if mode == PoweringOff then Powers.StepsLeft(false, s)
    else 0
  }

  /** The measure of the settle loop has become smaller. */
  predicate Closer(mode: Mode, s: Powers.State, pending: nat, silent: bool,
                   mode0: Mode, s0: Powers.State, pending0: nat, silent0: bool, power: Option<bool>) {
    || Rank(mode, power) < Rank(mode0, power)
    || (mode == mode0
        && (|| PowerStepsLeft(mode, s) < PowerStepsLeft(mode, s0)
            || (s == s0 && (pending < pending0 || (pending == pending0 && silent && !silent0)))))
  }

  // ---- history of power states ----

  /** A power state was entered at time `at`. `trigger` is the time of the latest request to shut
      down, `heard` tells that POWERED DOWN was the last thing heard from the modem. */
  datatype Change = Change(mode: Mode, at: nat, trigger: nat, heard: bool)

  /** Whole seconds between two points in time. */
  function SecondsBetween(from: nat, to: nat): int { (to - from) / 1000 }

  predicate MayFollow(a: Change, b: Change) {
    && a.at <= b.at
    && match b.mode
       case Unknown => false
       case PoweringOn => a.mode == Mode.Unknown || a.mode == PowerOff
       case AtProtocol => a.mode == PoweringOn || a.mode == AtBusy
       case PowerOn => a.mode == PoweringOn
       case AtBusy => a.mode == AtProtocol || a.mode == AtShutdown
       case AtShutdown => a.mode == PoweringOn || a.mode == PowerOn || a.mode == AtProtocol || a.mode == AtBusy
       case AtGraceDelay => a.mode == AtShutdown && b.heard && b.trigger == a.trigger
       case PoweringOff =>
         || a.mode == PoweringOn || a.mode == PowerOn
         || (a.mode == AtGraceDelay && b.at - a.at >= 1000)
         || ((a.mode == AtShutdown || a.mode == AtGraceDelay) && SecondsBetween(a.trigger, b.at) > 25)
       case PowerOff => a.mode == PoweringOff
  }

  predicate Orderly(trace: seq<Change>) {
    forall i :: 0 <= i < |trace| - 1 ==> MayFollow(trace[i], trace[i + 1])
  }

  /** A grace delay was entered since `before` only with POWERED DOWN being the last thing heard. */
  predicate GraceIsGenuine(before: seq<Change>, after: seq<Change>, poweredDown: bool) {
    before <= after
    && forall i :: |before| <= i < |after| && after[i].mode == AtGraceDelay ==> poweredDown && after[i].heard
  }

  lemma TraceGrows(before: seq<Change>, after: seq<Change>, poweredDown: bool)
    requires GraceIsGenuine(before, after, poweredDown)
    ensures before <= after
  {
  }

  predicate Talking(mode: Mode) { mode == AtProtocol || mode == AtBusy }

  /** Between the two entries the modem was asked to shut down, and either it had reported
      POWERED DOWN at least 1000 ms earlier or the request was more than 25 whole seconds old. */
  predicate ShutDownBetween(trace: seq<Change>, i: nat, j: nat)
    requires i < j < |trace|
  {
    exists k :: i < k < j && trace[k].mode == AtShutdown
      && (|| (k + 2 == j && trace[k + 1].mode == AtGraceDelay && trace[k + 1].heard
              && trace[j].at - trace[k + 1].at >= 1000)
          || ((k + 1 == j || k + 2 == j) && trace[j].at - trace[k].trigger >= 26000))
  }

  /** From talking the AT protocol, the modem comes to be cut off. */
  predicate CutsOff(trace: seq<Change>, i: nat, j: nat)
    requires i < j < |trace|
  {
    Talking(trace[i].mode) && trace[j].mode == PoweringOff && forall k :: i <= k < j ==> trace[k].mode != PoweringOff
  }

  predicate Polite(trace: seq<Change>) {
    forall i: nat, j: nat :: i < j < |trace| && CutsOff(trace, i, j) ==> ShutDownBetween(trace, i, j)
  }

  lemma OrderlyIsPolite(trace: seq<Change>)
    requires Orderly(trace)
    ensures Polite(trace)
  {
    hide Orderly, CutsOff, ShutDownBetween;
    forall i: nat, j: nat | i < j < |trace| && CutsOff(trace, i, j) ensures ShutDownBetween(trace, i, j) {
      PoliteShutdown(trace, i, j);
    }
  }

  /** A modem that talks the AT protocol is cut off only after a shutdown. */
  lemma PoliteShutdown(trace: seq<Change>, i: nat, j: nat)
    requires Orderly(trace) && i < j < |trace| && CutsOff(trace, i, j)
    ensures ShutDownBetween(trace, i, j)
  {
    StaysUp(trace, i, j - 1);
    assert MayFollow(trace[j - 1], trace[j - 1 + 1]);
    if trace[j - 1].mode == AtGraceDelay {
      assert MayFollow(trace[j - 2], trace[j - 2 + 1]);
      assert trace[j - 2].mode == AtShutdown;
    } else {
      assert trace[j - 1].mode == AtShutdown;
    }
  }

  /** Without being powered off, the modem stays in the states of the AT protocol. */
  lemma {:induction false} StaysUp(trace: seq<Change>, i: nat, k: nat)
    requires Orderly(trace) && i <= k < |trace|
    requires Talking(trace[i].mode)
    requires forall m :: i <= m <= k ==> trace[m].mode != PoweringOff
    ensures Talking(trace[k].mode) || trace[k].mode == AtShutdown || trace[k].mode == AtGraceDelay
    decreases k - i
  {
    if i < k {
      StaysUp(trace, i, k - 1);
      assert MayFollow(trace[k - 1], trace[k - 1 + 1]);
    }
  }

  /** A call of one of the two handlers, and what the modem has sent since the last one. */
  datatype Call = ConfigUpdate(cfg: MainConfig, data: seq<string>) | Timeout(cfg: MainConfig, data: seq<string>)

  // ---- surroundings ----

  class Clock {
    var now: nat

    constructor ()
    {
      now := 0;
    }

    method ElapsedMs() returns (t: nat)
      modifies this
      ensures old(now) <= t && now == t
    {
      t :| now <= t;
      now := t;
    }
  }

  function TimeoutMs(ops: Slots): nat {
    if In(ops[HANG_UP], Submitted) then 90 * 1000 else 600
  }

  // ---- what the surroundings amount to ----

  /** The only setting that the driver takes care of. */
  const SETTINGS := [Entry("usbnet", "1", EntryState.Unknown)]

  /** What decides about the next power state: the state of the power driver, whether the AT protocol is
      wanted, whether there is an AT driver, whether it is powering the modem down or has done so, whether
      it had heard POWERED DOWN before, and whether the two delays are over. */
  datatype Facts = Facts(power: Powers.State, useAt: bool, hasDriver: bool, leaving: bool, heard: bool,
                         graceOver: bool, givenUp: bool)

  function NextMode(a: Mode, power: Option<bool>, f: Facts): Mode {
    match a
    case Unknown => if power == Some(true) then PoweringOn else a
    case PowerOff => if power == Some(true) then PoweringOn else a
    case PowerOn => if power == Some(false) then PoweringOff else a
    case PoweringOn =>
      var up := if f.power != Powers.On then PoweringOn else if f.useAt then AtProtocol else PowerOn;
      if power != Some(false) then up else if !f.hasDriver then PoweringOff else if f.leaving then AtShutdown else up
    case AtProtocol => if power == Some(false) && f.leaving then AtShutdown else a
    case AtBusy => if power == Some(false) && f.leaving then AtShutdown else a
    case AtShutdown => if f.givenUp then PoweringOff else if f.heard then AtGraceDelay else AtShutdown
    case AtGraceDelay => if f.graceOver then PoweringOff else AtGraceDelay
    case PoweringOff => if f.power == Powers.Off then PowerOff else PoweringOff
  }

  /** The facts that decided are those at the beginning of a step: a delay that was over is over, and the
      AT driver is as it was. */
  predicate FactsFit(f: Facts, mode: Mode, useAt: bool, was: Facts) {
    && f.useAt == useAt && f.heard == was.heard
    && (mode == AtGraceDelay && was.graceOver ==> f.graceOver)
    && (mode == AtShutdown && was.givenUp ==> f.givenUp)
    && (Talking(mode) ==> f.leaving == was.leaving)
  }

  /** The power state has moved by one step, and then at most further on. */
  predicate Moved(before: Mode, now: Mode, power: Option<bool>, first: Facts) {
    var second := NextMode(before, power, first);
    now == second || Rank(now, power) < Rank(second, power)
  }

  /** What the iterations of the settle loop amount to so far: nothing yet, or a first step and more. */
  predicate Advances(before: Mode, was: Facts, now: Mode, cfg: MainConfig, started: bool, first: Facts,
                     requested: Powers.Requested) {
    && (now == before || Rank(now, cfg.power) < Rank(before, cfg.power))
    && (!started ==> now == before)
    && (started ==>
          && Moved(before, now, cfg.power, first) && FactsFit(first, before, cfg.useAtProtocol, was)
          && (before == PoweringOn == now ==> requested == Powers.RequestOn)
          && (before == PoweringOff == now ==> requested == Powers.RequestOff))
  }

  lemma NotSettled(mode: Mode, was: Facts, cfg: MainConfig, first: Facts, requested: Powers.Requested)
    ensures Advances(mode, was, mode, cfg, false, first, requested)
  {
  }

  lemma AllSettled(before: Mode, was: Facts, now: Mode, cfg: MainConfig, first: Facts, requested: Powers.Requested)
    requires Advances(before, was, now, cfg, true, first, requested)
    ensures Moved(before, now, cfg.power, first) && FactsFit(first, before, cfg.useAtProtocol, was)
    ensures (before == PoweringOn == now ==> requested == Powers.RequestOn)
            && (before == PoweringOff == now ==> requested == Powers.RequestOff)
  {
  }

  lemma SettlesOn(before: Mode, was: Facts, mid: Mode, now: Mode, cfg: MainConfig, started: bool, first: Facts, facts: Facts,
                  requested: Powers.Requested, requested': Powers.Requested)
    requires Advances(before, was, mid, cfg, started, first, requested)
    requires now == NextMode(mid, cfg.power, facts) && (now == mid || Rank(now, cfg.power) < Rank(mid, cfg.power))
    requires !started ==> FactsFit(facts, mid, cfg.useAtProtocol, was)
    requires (mid == PoweringOn ==> requested' == Powers.RequestOn) && (mid == PoweringOff ==> requested' == Powers.RequestOff)
    ensures Advances(before, was, now, cfg, true, if started then first else facts, requested')
  {
    hide Rank, NextMode, FactsFit, Moved;
    MovedFurther(before, mid, now, cfg.power, first, facts, started);
  }

  lemma MovedFurther(before: Mode, mid: Mode, now: Mode, power: Option<bool>, first: Facts, facts: Facts, started: bool)
    requires if started then Moved(before, mid, power, first) else mid == before
    requires now == NextMode(mid, power, facts) && (now == mid || Rank(now, power) < Rank(mid, power))
    ensures Moved(before, now, power, if started then first else facts)
  {
    hide Rank, NextMode;
  }

  lemma NextModeLeads(a: Mode, power: Option<bool>, f: Facts)
    ensures LeadsTo(a, NextMode(a, power, f), power)
  {
  }

  predicate AllPasses(events: seq<Event>, cfg: Config) {
    forall e :: e in events ==> e.Pass? && e.cfg == cfg
  }

  /** After `before` there were only passes, with this configuration. */
  predicate OnlyPasses(before: seq<Event>, after: seq<Event>, cfg: Config) {
    before <= after && AllPasses(after[|before|..], cfg)
  }

  /** The same driver made passes only, or a new one was constructed and did so. */
  predicate Follows(was: DriverObject?, before: seq<Event>, now: DriverObject?, after: seq<Event>, cfg: Config,
                    inCharge: bool) {
    now != null ==>
      && OnlyPasses(if now == was then before else [], after, cfg)
      && (inCharge ==> |after| > if now == was then |before| else 0)
  }

  lemma FollowsTwice(a: DriverObject?, ea: seq<Event>, b: DriverObject?, eb: seq<Event>, c: DriverObject?, ec: seq<Event>,
                     cfg: Config, first: bool, inCharge: bool)
    requires Follows(a, ea, b, eb, cfg, first) && Follows(b, eb, c, ec, cfg, inCharge) && (c == null || c == b || c != a)
    ensures Follows(a, ea, c, ec, cfg, inCharge)
  {
    if c != null && c == b {
      PassesTwice(if b == a then ea else [], eb, ec, cfg);
    }
  }

  lemma FollowsLess(a: DriverObject?, ea: seq<Event>, b: DriverObject?, eb: seq<Event>, cfg: Config, inCharge: bool)
    requires Follows(a, ea, b, eb, cfg, inCharge)
    ensures Follows(a, ea, b, eb, cfg, false)
  {
  }

  lemma NothingFollows(a: DriverObject?, events: seq<Event>, cfg: Config)
    ensures Follows(a, events, a, events, cfg, false)
  {
  }

  lemma OnePassFollows(driver: DriverObject?, before: seq<Event>, after: seq<Event>, cfg: Config)
    requires exists lines :: after == before + [Pass(lines, cfg)]
    ensures Follows(driver, before, driver, after, cfg, true)
  {
    var lines :| after == before + [Pass(lines, cfg)];
    assert after[|before|..] == [Pass(lines, cfg)];
  }

  lemma PassesTwice(a: seq<Event>, b: seq<Event>, c: seq<Event>, cfg: Config)
    requires OnlyPasses(a, b, cfg) && OnlyPasses(b, c, cfg)
    ensures OnlyPasses(a, c, cfg)
  {
    assert c[|a|..] == b[|a|..] + c[|b|..];
  }

  class ModemMain {
    const clock: Clock
    const power: Powers.Power
    const commands: CommandChannel
    const responses: ResponseChannel

    var mode: Mode
    var driver: DriverObject?
    var shutdownTriggered: nat
    var poweredDownAt: nat
    var lastProgress: nat
    var timerScheduled: bool
    ghost var trace: seq<Change>
    /** What has happened to the AT driver since it was constructed. */
    ghost var events: seq<Event>

    ghost function Footprint(): set<object>
      reads this`driver
    {
      if driver == null then {} else driver.Footprint()
    }

    /** The state of the AT driver is that of a run from the beginning. */
    ghost predicate DriverValid()
      reads this`driver, this`events, Footprint()
    {
      driver == null || (driver.Valid() && driver.readBuffer.maxLineLen == MAX_LINE_LEN
                         && driver.readBuffer.payloadBytes <= 2 * MAX_LINE_LEN
                         && AtMostOneSubmitted(driver.control.ops)
                         && driver.Value() == Run(Initial(SETTINGS), events))
    }

    /** The power driver has not come further than the power state says. */
    predicate PowerFits()
      reads this`mode, power
    {
      && (mode == Mode.Unknown ==> power.state == Powers.Unknown)
      && (mode == PowerOff ==> power.state == Powers.Off)
      && (mode == PoweringOn ==> power.state != Powers.On)
    }

    /** The AT-protocol driver exists while it is in charge, and the history is in order. */
    ghost predicate TraceValid()
      reads this`mode, this`trace, this`driver, this`shutdownTriggered, this`poweredDownAt, clock
    {
      && trace != [] && Orderly(trace)
      && trace[|trace| - 1].mode == mode && trace[|trace| - 1].at <= clock.now
      && shutdownTriggered <= clock.now
      && (Talking(mode) || mode == AtShutdown ==> driver != null)
      && (mode == AtShutdown || mode == AtGraceDelay ==> trace[|trace| - 1].trigger == shutdownTriggered)
      && (mode == AtGraceDelay ==> driver == null && trace[|trace| - 1].at == poweredDownAt)
    }

    ghost predicate Valid()
      reads this`mode, this`trace, this`driver, this`events, this`shutdownTriggered, this`poweredDownAt, clock, power,
            Footprint()
    {
      DriverValid() && TraceValid() && PowerFits()
    }

    function DriverValue(): Option<Driver>
      reads this`driver, Footprint()
    {
      if driver == null then None else Some(driver.Value())
    }

    function Version(): nat
      reads this`driver, Footprint()
    {
      if driver == null then 0 else driver.status.counts.version
    }

    function BusyCount(): nat
      reads this`driver, Footprint()
    {
      if driver == null then 0 else driver.status.counts.busy
    }

    predicate PoweringDown()
      reads this`driver, Footprint()
    {
      driver != null && driver.control.ops[POWER_DOWN].Op? && !driver.status.link.poweredDown
    }

    predicate PoweredDown()
      reads this`driver, Footprint()
    {
      driver != null && driver.status.link.poweredDown
    }

    predicate Busy(origBusyCount: nat)
      reads this`driver, Footprint()
    {
      driver != null && !PoweringDown() && origBusyCount != BusyCount()
    }

    constructor (commands: CommandChannel, responses: ResponseChannel)
      ensures Valid() && driver == null && mode == Mode.Unknown
      ensures this.commands == commands && this.responses == responses
      ensures fresh(clock) && fresh(power) && fresh(power.pin)
    {
      var c := new Clock();
      clock := c;
      power := new Powers.Power();
      this.commands, this.responses := commands, responses;
      mode, driver := Mode.Unknown, null;
      shutdownTriggered, poweredDownAt, lastProgress := 0, 0, 0;
      timerScheduled := false;
      trace := [Change(Mode.Unknown, 0, 0, false)];
      events := [];
    }

    /** Enter a power state at the given time. */
    method Enter(next: Mode, at: nat, heard: bool)
      requires trace != [] && Orderly(trace)
      requires MayFollow(trace[|trace| - 1], Change(next, at, shutdownTriggered, heard))
      modifies this`mode, this`trace
      ensures mode == next && trace == old(trace) + [Change(next, at, shutdownTriggered, heard)]
      ensures Orderly(trace)
    {
      mode := next;
      trace := trace + [Change(next, at, shutdownTriggered, heard)];
    }

    method ConstructDriver()
      requires TraceValid()
      modifies this`driver, this`events
      ensures fresh(driver) && fresh(Footprint()) && DriverValid() && events == []
      ensures DriverValue() == Some(Initial(SETTINGS))
    {
      var qcfg := new Qcfg(SETTINGS);
      driver := new DriverObject(qcfg, MAX_LINE_LEN);
      events := [];
      assert Invalidated(qcfg.entries) == qcfg.entries;
    }

    /** One pass of the AT-protocol driver. */
    method ApplyAt(cfg: Config)
      requires driver != null && DriverValid()
      modifies this`events, commands, responses, Footprint()
      ensures unchanged(this`mode, this`driver, this`trace, this`lastProgress, this`timerScheduled)
      ensures unchanged(this`shutdownTriggered, this`poweredDownAt, clock, power)
      ensures DriverValid() && Footprint() == old(Footprint())
      ensures events == old(events)
                + [Pass(Drain(MAX_LINE_LEN, old(driver.readBuffer.Content()), old(responses.chunks)).0, cfg)]
      ensures old(Version()) <= Version() && (Version() == old(Version()) ==> Silent(cfg))
      ensures || BytesLeft(responses.chunks) < old(BytesLeft(responses.chunks))
              || (BytesLeft(responses.chunks) == old(BytesLeft(responses.chunks)) && Silent(cfg)
                  && (Version() == old(Version()) || !old(Silent(cfg))))
    {
      hide Run, Initial, Drain, SentIn, SentAt, BytesLeft, Applied, AtMostOneSubmitted;
      ghost var d, chunks, buf := driver.Value(), responses.chunks, driver.readBuffer.Content();
      ghost var lines := Drain(MAX_LINE_LEN, buf, chunks).0;
      ProgressIsBounded(d, MAX_LINE_LEN, buf, chunks, cfg);
      AtMostOneStays(d, lines, cfg);
      SubmissionsAreCounted(d, lines, cfg);
      if SentIn(d, lines, cfg).None? { QuietPassRests(d, lines, cfg); }
      RunAppend(Initial(SETTINGS), events, Pass(lines, cfg));
      driver.Apply(cfg, commands, responses);
      events := events + [Pass(lines, cfg)];
    }

    // ---- `_apply_power_state`, case by case ----

    method TriggerStartup(power: Option<bool>)
      requires Valid() && (mode == PowerOff || mode == Mode.Unknown)
      modifies this`mode, this`trace, clock
      ensures old(clock.now) <= clock.now
      ensures GraceIsGenuine(old(trace), trace, false)
      ensures Valid()
      ensures mode == if power == Some(true) then PoweringOn else old(mode)
    {
      hide Run, Initial, AtMostOneSubmitted, DriverObject.Value, Orderly;
      if power == Some(true) {
        var t := clock.ElapsedMs();
        Enter(PoweringOn, t, false);
      }
    }

    method TriggerPowerOff(power: Option<bool>)
      requires Valid() && mode == PowerOn
      modifies this`mode, this`trace, this`shutdownTriggered, clock
      ensures old(clock.now) <= clock.now
      ensures GraceIsGenuine(old(trace), trace, false)
      ensures Valid()
      ensures mode == if power == Some(false) then PoweringOff else PowerOn
    {
      hide Run, Initial, AtMostOneSubmitted, DriverObject.Value, Orderly;
      if power == Some(false) {
        shutdownTriggered := clock.ElapsedMs();
        Enter(PoweringOff, shutdownTriggered, false);
      }
    }

    /** Leave the AT protocol once its driver is powering the modem down. */
    method TriggerShutdown(power: Option<bool>)
      requires Valid() && (mode == PoweringOn || Talking(mode) || mode == PowerOn)
      modifies this`mode, this`trace, this`shutdownTriggered, clock
      ensures old(clock.now) <= clock.now
      ensures GraceIsGenuine(old(trace), trace, false)
      ensures Valid()
      ensures mode == if power != Some(false) then old(mode)
                      else if driver == null then PoweringOff
                      else if driver.control.ops[POWER_DOWN].Op? || driver.status.link.poweredDown then AtShutdown
                      else old(mode)
    {
      hide Run, Initial, AtMostOneSubmitted, DriverObject.Value, Orderly;
      if power == Some(false) {
        shutdownTriggered := clock.ElapsedMs();
        if driver != null {
          if PoweringDown() || PoweredDown() {
            Enter(AtShutdown, shutdownTriggered, false);
          }
        } else {
          Enter(PoweringOff, shutdownTriggered, false);
        }
      }
    }

    /** The grace delay starts when the modem reported POWERED DOWN; without such a report the
        shutdown is given up after 25 seconds. */
    method AwaitShutdown()
      requires Valid() && mode == AtShutdown
      modifies this`mode, this`trace, this`driver, this`poweredDownAt, clock
      ensures Valid() && (Footprint() == old(Footprint()) || fresh(Footprint()))
      ensures old(clock.now) <= clock.now
      ensures GraceIsGenuine(old(trace), trace, old(PoweredDown()))
      ensures driver == if old(driver.status.link.poweredDown) then null else old(driver)
      ensures mode == if (clock.now - shutdownTriggered) / 1000 > 25 then PoweringOff
                      else if old(driver.status.link.poweredDown) then AtGraceDelay else AtShutdown
    {
      hide AtMostOneSubmitted, Run, Initial, DriverObject.Value, Orderly;
      var heard := PoweredDown();
      if heard {
        driver := null;
        poweredDownAt := clock.ElapsedMs();
        Enter(AtGraceDelay, poweredDownAt, heard);
      }
      var t := clock.ElapsedMs();
      if SecondsBetween(shutdownTriggered, t) > 25 {
        Enter(PoweringOff, t, false);
      }
    }

    method AwaitGraceDelay()
      requires Valid() && mode == AtGraceDelay
      modifies this`mode, this`trace, clock
      ensures old(clock.now) <= clock.now
      ensures GraceIsGenuine(old(trace), trace, false)
      ensures Valid() && mode == if clock.now - poweredDownAt >= 1000 then PoweringOff else AtGraceDelay
    {
      hide Run, Initial, AtMostOneSubmitted, DriverObject.Value, Orderly;
      var t := clock.ElapsedMs();
      if t - poweredDownAt >= 1000 {
        Enter(PoweringOff, t, false);
      }
    }

    method PowerDown()
      requires Valid() && mode == PoweringOff
      modifies this`mode, this`trace, power, power.pin
      ensures GraceIsGenuine(old(trace), trace, false)
      ensures Valid() && mode == if power.state == Powers.Off then PowerOff else PoweringOff
      ensures power.requested == Powers.RequestOff
      ensures power.state == old(power.state)
              || PowerStepsLeft(PoweringOff, power.state) < PowerStepsLeft(PoweringOff, old(power.state))
    {
      hide Run, Initial, AtMostOneSubmitted, DriverObject.Value, Orderly;
      power.PowerEnabled(false);
      if power.state == Powers.Off {
        Enter(PowerOff, clock.now, false);
      }
    }

    /** Drive the power-up sequence, and start the AT protocol once the modem is on. */
    method PowerUp(cfg: MainConfig)
      requires Valid() && mode == PoweringOn
      modifies this`mode, this`trace, this`driver, this`events, power, power.pin, commands, responses
      ensures GraceIsGenuine(old(trace), trace, false)
      ensures power.requested == Powers.RequestOn && (mode != PoweringOn ==> power.state != old(power.state))
      ensures Valid() && (Footprint() == old(Footprint()) || fresh(Footprint()))
      ensures mode == if power.state != Powers.On then PoweringOn
                      else if cfg.useAtProtocol then AtProtocol else PowerOn
      ensures if mode == AtProtocol then driver != null && fresh(Footprint()) && |events| == 1 && AllPasses(events, cfg.at)
              else driver == old(driver) && events == old(events) && responses.chunks == old(responses.chunks)
      ensures power.state == old(power.state)
              || PowerStepsLeft(PoweringOn, power.state) < PowerStepsLeft(PoweringOn, old(power.state))
    {
      hide Run, Initial, AtMostOneSubmitted, DriverObject.Value, Orderly;
      power.PowerEnabled(true);
      if power.state == Powers.On {
        if cfg.useAtProtocol {
          StartAt(cfg.at);
        } else {
          LeaveAtOut();
        }
      }
    }

    /** Construct the AT-protocol driver and put it in charge. */
    method EnterAt()
      requires DriverValid() && TraceValid() && mode == PoweringOn
      modifies this`mode, this`trace, this`driver, this`events
      ensures GraceIsGenuine(old(trace), trace, false)
      ensures Valid() && mode == AtProtocol && driver != null && fresh(Footprint()) && events == []
    {
      hide Run, Initial, AtMostOneSubmitted, DriverObject.Value, Orderly;
      ConstructDriver();
      Enter(AtProtocol, clock.now, false);
    }

    method StartAt(cfg: Config)
      requires DriverValid() && TraceValid() && mode == PoweringOn
      modifies this`mode, this`trace, this`driver, this`events, commands, responses
      ensures GraceIsGenuine(old(trace), trace, false)
      ensures Valid() && mode == AtProtocol && driver != null && fresh(Footprint())
      ensures |events| == 1 && AllPasses(events, cfg)
    {
      hide Run, Initial, AtMostOneSubmitted, DriverObject.Value, Orderly;
      EnterAt();
      ApplyAt(cfg);
    }

    method LeaveAtOut()
      requires DriverValid() && TraceValid() && mode == PoweringOn
      modifies this`mode, this`trace
      ensures GraceIsGenuine(old(trace), trace, false)
      ensures Valid() && mode == PowerOn
    {
      hide Run, Initial, AtMostOneSubmitted, DriverObject.Value, Orderly;
      Enter(PowerOn, clock.now, false);
    }

    /** What decides about the next power state, at the end of a step; `heard` is from its beginning. */
    function FactsNow(useAt: bool, heard: bool): Facts
      reads this`driver, this`poweredDownAt, this`shutdownTriggered, clock, power, Footprint()
    {
      Facts(power.state, useAt, driver != null,
            driver != null && (driver.control.ops[POWER_DOWN].Op? || driver.status.link.poweredDown), heard,
            clock.now - poweredDownAt >= 1000, SecondsBetween(shutdownTriggered, clock.now) > 25)
    }

    method ApplyPowerState(cfg: MainConfig)
      requires Valid()
      modifies this`mode, this`trace, this`driver, this`events, this`shutdownTriggered, this`poweredDownAt,
               clock, power, power.pin, commands, responses
      ensures old(clock.now) <= clock.now
      ensures old(mode) == AtGraceDelay ==> poweredDownAt == old(poweredDownAt)
      ensures old(mode) == AtShutdown ==> shutdownTriggered == old(shutdownTriggered)
      ensures Talking(old(mode)) ==> driver == old(driver)
      ensures GraceIsGenuine(old(trace), trace, old(PoweredDown()))
      ensures Valid() && (Footprint() == old(Footprint()) || fresh(Footprint()))
      ensures mode == NextMode(old(mode), cfg.power, FactsNow(cfg.useAtProtocol, old(PoweredDown())))
      ensures mode == old(mode) ==>
                && driver == old(driver) && responses.chunks == old(responses.chunks)
                && (power.state == old(power.state)
                    || PowerStepsLeft(mode, power.state) < PowerStepsLeft(mode, old(power.state)))
      ensures driver == null || driver == old(driver) || mode == AtProtocol || mode == AtShutdown
      ensures old(mode) == PoweringOn ==> power.requested == Powers.RequestOn
      ensures old(mode) == PoweringOff ==> power.requested == Powers.RequestOff
      ensures Follows(old(driver), old(events), driver, events, cfg.at, false)
      ensures driver == null || driver == old(driver) || (power.state != old(power.state) && fresh(driver))
    {
      hide Valid, PoweringDown, PoweredDown, PowerStepsLeft;
      if mode == AtShutdown || mode == AtGraceDelay || mode == PoweringOff {
        ApplyFalling(cfg.power, cfg.useAtProtocol);
      } else {
        ApplyRising(cfg);
      }
    }

    lemma HasDriver()
      requires Valid()
      ensures Talking(mode) || mode == AtShutdown ==> driver != null
    {
    }

    /** The cases in which the modem is being shut down. */
    method ApplyFalling(ghost request: Option<bool>, ghost useAt: bool)
      requires Valid() && (mode == AtShutdown || mode == AtGraceDelay || mode == PoweringOff)
      modifies this`mode, this`trace, this`driver, this`poweredDownAt, clock, power, power.pin
      ensures old(clock.now) <= clock.now
      ensures old(mode) == AtGraceDelay ==> poweredDownAt == old(poweredDownAt)
      ensures GraceIsGenuine(old(trace), trace, old(PoweredDown()))
      ensures Valid() && (Footprint() == old(Footprint()) || fresh(Footprint()))
      ensures mode == NextMode(old(mode), request, FactsNow(useAt, old(PoweredDown())))
      ensures driver == null || driver == old(driver)
      ensures mode == old(mode) ==> driver == old(driver)
      ensures old(mode) == PoweringOff ==> power.requested == Powers.RequestOff
      ensures power.state == old(power.state)
              || PowerStepsLeft(old(mode), power.state) < PowerStepsLeft(old(mode), old(power.state))
    {
      hide PowerStepsLeft, DriverValid, TraceValid, PowerFits;
      HasDriver();
      match mode
      case AtShutdown => AwaitShutdown();
      case AtGraceDelay => AwaitGraceDelay();
      case PoweringOff => PowerDown();
    }

    /** The modem is being started, which may be given up at once. */
    method StartUp(cfg: MainConfig)
      requires Valid() && mode == PoweringOn
      modifies this`mode, this`trace, this`driver, this`events, this`shutdownTriggered, clock, power, power.pin,
               commands, responses
      ensures old(clock.now) <= clock.now
      ensures GraceIsGenuine(old(trace), trace, false)
      ensures Valid() && (Footprint() == old(Footprint()) || fresh(Footprint()))
      ensures mode == (var up := if power.state != Powers.On then PoweringOn
                                 else if cfg.useAtProtocol then AtProtocol else PowerOn;
                       if cfg.power != Some(false) then up
                       else if driver == null then PoweringOff
                       else if driver.control.ops[POWER_DOWN].Op? || driver.status.link.poweredDown then AtShutdown
                       else up)
      ensures power.state == old(power.state)
              || PowerStepsLeft(PoweringOn, power.state) < PowerStepsLeft(PoweringOn, old(power.state))
      ensures power.requested == Powers.RequestOn
      ensures if power.state == Powers.On && cfg.useAtProtocol
              then driver != null && fresh(driver) && fresh(Footprint()) && power.state != old(power.state)
                   && |events| == 1 && AllPasses(events, cfg.at)
              else driver == old(driver) && events == old(events) && responses.chunks == old(responses.chunks)
    {
      hide PowerStepsLeft, AllPasses, DriverValid, TraceValid, PowerFits;
      PowerUp(cfg);
      TriggerShutdown(cfg.power);
    }

    /** The cases in which the modem is off, on, or being started. */
    method ApplyRising(cfg: MainConfig)
      requires Valid() && mode != AtShutdown && mode != AtGraceDelay && mode != PoweringOff
      modifies this`mode, this`trace, this`driver, this`events, this`shutdownTriggered, this`poweredDownAt,
               clock, power, power.pin, commands, responses
      ensures old(clock.now) <= clock.now
      ensures Talking(old(mode)) ==> driver == old(driver)
      ensures GraceIsGenuine(old(trace), trace, false)
      ensures Valid() && (Footprint() == old(Footprint()) || fresh(Footprint()))
      ensures mode == NextMode(old(mode), cfg.power, FactsNow(cfg.useAtProtocol, old(PoweredDown())))
      ensures mode == old(mode) ==> driver == old(driver) && responses.chunks == old(responses.chunks)
      ensures power.state == old(power.state)
              || PowerStepsLeft(old(mode), power.state) < PowerStepsLeft(old(mode), old(power.state))
      ensures driver == old(driver) || mode == AtProtocol || mode == AtShutdown
      ensures old(mode) == PoweringOn ==> power.requested == Powers.RequestOn
      ensures if driver == old(driver) then events == old(events)
              else driver != null && fresh(Footprint()) && power.state != old(power.state)
                   && |events| == 1 && AllPasses(events, cfg.at)
    {
      hide PowerStepsLeft, AllPasses, DriverValid, TraceValid, PowerFits;
      HasDriver();
      match mode
      case PowerOff => TriggerStartup(cfg.power);
      case Unknown => TriggerStartup(cfg.power);
      case PowerOn => TriggerPowerOff(cfg.power);
      case PoweringOn => StartUp(cfg);
      case AtProtocol => TriggerShutdown(cfg.power);
      case AtBusy => TriggerShutdown(cfg.power);
    }

    predicate AtInCharge()
      reads this`mode, this`driver
    {
      driver != null && (mode == AtProtocol || mode == AtShutdown)
    }

    /** The AT-protocol driver has nothing to submit before it gets new data. */
    ghost predicate Silent(cfg: Config)
      reads this`driver, Footprint()
    {
      driver != null && SentAt(driver.Value(), Pass([], cfg)).None?
    }

    /** Drive the AT protocol if it is in charge. */
    method DriveAt(cfg: Config)
      requires Valid()
      modifies this`events, commands, responses, Footprint()
      ensures unchanged(this`mode, this`driver, this`lastProgress, this`timerScheduled)
      ensures Valid() && Footprint() == old(Footprint())
      ensures AtInCharge() <==> driver != null && (mode == AtProtocol || mode == AtShutdown)
      ensures AtInCharge() ==> |events| == |old(events)| + 1
      ensures Follows(old(driver), old(events), driver, events, cfg, AtInCharge())
      ensures old(Version()) <= Version() && (AtInCharge() && Version() == old(Version()) ==> Silent(cfg))
      ensures !AtInCharge() ==> Version() == old(Version()) && responses.chunks == old(responses.chunks)
      ensures !AtInCharge() ==> Silent(cfg) == old(Silent(cfg)) && forall n :: Busy(n) == old(Busy(n))
      ensures || BytesLeft(responses.chunks) < old(BytesLeft(responses.chunks))
              || (BytesLeft(responses.chunks) == old(BytesLeft(responses.chunks))
                  && (|| (Version() == old(Version()) && Silent(cfg) == old(Silent(cfg)))
                      || (!old(Silent(cfg)) && Silent(cfg))))
    {
      hide SentAt, Run, Initial, BytesLeft, DriverValid, Drain, Silent, Follows, Version, Orderly;
      NothingFollows(driver, events, cfg);
      if AtInCharge() {
        ghost var before := events;
        ApplyAt(cfg);
        OnePassFollows(driver, before, events, cfg);
      }
    }

    /** The step of the power state, with its effect on the AT driver. */
    method MovePower(cfg: MainConfig) returns (ghost facts: Facts)
      requires Valid()
      modifies this`mode, this`trace, this`driver, this`events, this`shutdownTriggered, this`poweredDownAt,
               clock, power, power.pin, commands, responses
      ensures old(clock.now) <= clock.now
      ensures GraceIsGenuine(old(trace), trace, old(PoweredDown()))
      ensures Valid() && (Footprint() == old(Footprint()) || fresh(Footprint()))
      ensures mode == NextMode(old(mode), cfg.power, facts)
      ensures FactsFit(facts, old(mode), cfg.useAtProtocol, old(FactsNow(cfg.useAtProtocol, PoweredDown())))
      ensures old(mode) == PoweringOn ==> power.requested == Powers.RequestOn
      ensures old(mode) == PoweringOff ==> power.requested == Powers.RequestOff
      ensures Rank(mode, cfg.power) < Rank(old(mode), cfg.power)
              || (mode == old(mode) && responses.chunks == old(responses.chunks)
                  && Version() == old(Version()) && Silent(cfg.at) == old(Silent(cfg.at))
                  && (power.state == old(power.state)
                      || PowerStepsLeft(mode, power.state) < PowerStepsLeft(mode, old(power.state))))
      ensures power.state == old(power.state) ==> driver == null || Version() == old(Version())
      ensures forall n :: old(!Busy(n)) && Busy(n) ==> mode == AtProtocol || mode == AtShutdown
      ensures Follows(old(driver), old(events), driver, events, cfg.at, false)
      ensures driver == null || driver == old(driver) || fresh(driver)
    {
      hide SentAt, Rank, PowerStepsLeft, BytesLeft, Valid, Silent, Version, BusyCount, PoweringDown, PoweredDown,
           GraceIsGenuine, NextMode, Follows, LeadsTo;
      ApplyPowerState(cfg);
      NextModeLeads(old(mode), cfg.power, FactsNow(cfg.useAtProtocol, old(PoweredDown())));
      LeadsForward(old(mode), mode, cfg.power);
      assert driver == old(driver) ==> Version() == old(Version());
      facts := FactsNow(cfg.useAtProtocol, old(PoweredDown()));
    }

    /** One iteration of the settle loop. It gets closer to an end unless it changes neither the
        power driver nor the protocol state; in this case, the AT driver has nothing left to submit. */
    method Settle(cfg: MainConfig) returns (progress: bool, ghost facts: Facts)
      requires Valid()
      modifies this`mode, this`trace, this`driver, this`events, this`shutdownTriggered, this`poweredDownAt,
               clock, power, power.pin, commands, responses, Footprint()
      ensures unchanged(this`lastProgress, this`timerScheduled)
      ensures GraceIsGenuine(old(trace), trace, old(PoweredDown()))
      ensures Valid() && (Footprint() == old(Footprint()) || fresh(Footprint()))
      ensures progress ==> Closer(mode, power.state, BytesLeft(responses.chunks), Silent(cfg.at),
                                  old(mode), old(power.state), old(BytesLeft(responses.chunks)), old(Silent(cfg.at)),
                                  cfg.power)
      ensures forall n :: old(!Busy(n)) && Busy(n) ==> mode == AtProtocol || mode == AtShutdown
      ensures !progress && AtInCharge() ==> Silent(cfg.at)
      ensures Passed(old(driver), old(events), cfg.at)
      ensures driver == null || driver == old(driver) || fresh(driver)
      ensures mode == old(mode) || Rank(mode, cfg.power) < Rank(old(mode), cfg.power)
      ensures mode == NextMode(old(mode), cfg.power, facts)
      ensures FactsFit(facts, old(mode), cfg.useAtProtocol, old(FactsNow(cfg.useAtProtocol, PoweredDown())))
      ensures old(mode) == PoweringOn ==> power.requested == Powers.RequestOn
      ensures old(mode) == PoweringOff ==> power.requested == Powers.RequestOff
    {
      hide SentAt, Rank, PowerStepsLeft, BytesLeft, Valid, Silent, Version, BusyCount, PoweringDown, PoweredDown,
           GraceIsGenuine, NextMode, Follows, LeadsTo, FactsNow, FactsFit;
      var loopPowerState, loopVersion := power.state, Version();
      facts := MovePower(cfg);
      ghost var was, before := driver, events;
      DriveAt(cfg.at);
      FollowsTwice(old(driver), old(events), was, before, driver, events, cfg.at, false, AtInCharge());
      progress := loopPowerState != power.state || loopVersion != Version();
    }

    /** Since then, the AT driver has made passes only, and it has made one if it is in charge. */
    ghost predicate Passed(was: DriverObject?, before: seq<Event>, cfg: Config)
      reads this`mode, this`driver, this`events
    {
      Follows(was, before, driver, events, cfg, AtInCharge())
    }

    predicate StartingUp() reads this`mode { mode == PoweringOn }

    predicate ShuttingDown() reads this`mode { mode == AtShutdown || mode == AtGraceDelay || mode == PoweringOff }

    predicate ResponseOutstanding()
      reads this`driver, Footprint()
    {
      driver != null && driver.status.cmd.pending.Some?
    }

    predicate OutboundCall()
      reads this`driver, Footprint()
    {
      driver != null && driver.control.outbound.Some?
    }

    /** Something is under way that no signal will announce. */
    predicate NeedsPolling()
      reads this`mode, this`driver, Footprint()
    {
      StartingUp() || ShuttingDown() || OutboundCall() || mode == AtBusy || ResponseOutstanding()
    }

    /** An iteration of the settle loop, with what the iterations so far amount to. */
    method SettleOnce(cfg: MainConfig, ghost driver0: DriverObject?, ghost events0: seq<Event>, ghost mode0: Mode,
                      ghost was: Facts, ghost started: bool, ghost first: Facts)
      returns (progress: bool, ghost started': bool, ghost first': Facts)
      requires Valid() && Advances(mode0, was, mode, cfg, started, first, power.requested)
      requires Follows(driver0, events0, driver, events, cfg.at, false)
      requires !started ==> was == FactsNow(cfg.useAtProtocol, PoweredDown())
      modifies this`mode, this`trace, this`driver, this`events, this`shutdownTriggered, this`poweredDownAt,
               clock, power, power.pin, commands, responses, Footprint()
      ensures unchanged(this`lastProgress, this`timerScheduled)
      ensures GraceIsGenuine(old(trace), trace, old(PoweredDown()))
      ensures Valid() && (Footprint() == old(Footprint()) || fresh(Footprint()))
      ensures progress ==> Closer(mode, power.state, BytesLeft(responses.chunks), Silent(cfg.at),
                                  old(mode), old(power.state), old(BytesLeft(responses.chunks)), old(Silent(cfg.at)),
                                  cfg.power)
      ensures forall n :: old(!Busy(n)) && Busy(n) ==> mode == AtProtocol || mode == AtShutdown
      ensures !progress && AtInCharge() ==> Silent(cfg.at)
      ensures Advances(mode0, was, mode, cfg, started', first', power.requested) && started'
      ensures Follows(driver0, events0, driver, events, cfg.at, AtInCharge())
      ensures driver == null || driver == old(driver) || fresh(driver)
    {
      hide SentAt, BytesLeft, Rank, PowerStepsLeft, Valid, Silent, Footprint, BusyCount, NextMode, FactsFit, FactsNow,
           Follows, Moved, GraceIsGenuine, Advances, Closer, Busy;
      ghost var was', before, mid, requested := driver, events, mode, power.requested;
      ghost var facts;
      progress, facts := Settle(cfg);
      FollowsTwice(driver0, events0, was', before, driver, events, cfg.at, false, AtInCharge());
      SettlesOn(mode0, was, mid, mode, cfg, started, first, facts, requested, power.requested);
      started', first' := true, if started then first else facts;
    }

    lemma NotBusyYet()
      ensures !Busy(BusyCount())
    {
    }

    /** Drive power and AT protocol until both settle or the modem turns out to be busy. The loop
        ends for every configuration, everything that the modem may say and whatever the status
        pin reads. */
    method SettleAll(cfg: MainConfig) returns (ghost first: Facts)
      requires Valid()
      modifies this`mode, this`trace, this`driver, this`events, this`shutdownTriggered, this`poweredDownAt,
               clock, power, power.pin, commands, responses, Footprint()
      ensures unchanged(this`lastProgress, this`timerScheduled)
      ensures old(trace) <= trace
      ensures Valid() && (Footprint() == old(Footprint()) || fresh(Footprint()))
      ensures Busy(old(BusyCount())) ==> mode == AtProtocol || mode == AtShutdown
      ensures !Busy(old(BusyCount())) && AtInCharge() ==> Silent(cfg.at)
      ensures Moved(old(mode), mode, cfg.power, first)
      ensures FactsFit(first, old(mode), cfg.useAtProtocol, old(FactsNow(cfg.useAtProtocol, PoweredDown())))
      ensures old(mode) == PoweringOn == mode ==> power.requested == Powers.RequestOn
      ensures old(mode) == PoweringOff == mode ==> power.requested == Powers.RequestOff
      ensures Passed(old(driver), old(events), cfg.at)
    {
      hide SentAt, Orderly, AtMostOneSubmitted, BytesLeft, Rank, PowerStepsLeft, Valid, Busy, Silent, Footprint, BusyCount,
           NextMode, FactsFit, FactsNow, Follows, Moved, GraceIsGenuine, Advances;
      NothingFollows(driver, events, cfg.at);
      var origBusyCount := BusyCount();
      NotBusyYet();
      var again := true;
      ghost var started := false;
      ghost var was := FactsNow(cfg.useAtProtocol, PoweredDown());
      first := was;
      NotSettled(mode, was, cfg, first, power.requested);
      while again
        invariant old(trace) <= trace && unchanged(this`lastProgress, this`timerScheduled)
        invariant Valid() && (Footprint() == old(Footprint()) || fresh(Footprint()))
        invariant Busy(origBusyCount) ==> !again && (mode == AtProtocol || mode == AtShutdown)
        invariant !again ==> started && (!Busy(origBusyCount) && AtInCharge() ==> Silent(cfg.at))
        invariant Follows(old(driver), old(events), driver, events, cfg.at, !again && AtInCharge())
        invariant driver == null || driver == old(driver) || fresh(driver)
        invariant !started ==> was == FactsNow(cfg.useAtProtocol, PoweredDown())
        invariant Advances(old(mode), was, mode, cfg, started, first, power.requested)
        decreases again, Rank(mode, cfg.power), PowerStepsLeft(mode, power.state),
                  BytesLeft(responses.chunks), if Silent(cfg.at) then 0 else 1
      {
        var progress;
        ghost var before, heard := trace, PoweredDown();
        progress, started, first := SettleOnce(cfg, old(driver), old(events), old(mode), was, started, first);
        again := progress && !Busy(origBusyCount);
        TraceGrows(before, trace, heard);
        FollowsLess(old(driver), old(events), driver, events, cfg.at, AtInCharge());
      }
      AllSettled(old(mode), was, mode, cfg, first, power.requested);
    }

    /** Let power and AT protocol settle, and see to it that whatever needs polling gets it. Unless the
        modem is busy, the AT driver has nothing left to submit. */
    method HandleConfig(cfg: MainConfig) returns (ghost first: Facts)
      requires Valid()
      modifies this, clock, power, power.pin, commands, responses, Footprint()
      ensures old(trace) <= trace
      ensures Valid() && (Footprint() == old(Footprint()) || fresh(Footprint()))
      ensures timerScheduled == (old(timerScheduled) || NeedsPolling())
      ensures mode == AtBusy || Moved(old(mode), mode, cfg.power, first)
      ensures driver != null && (driver.control.ops[POWER_DOWN].Absent? || driver.status.link.poweredDown)
              && driver.status.counts.busy != old(if driver == null then 0 else driver.status.counts.busy)
              ==> mode == AtBusy
      ensures FactsFit(first, old(mode), cfg.useAtProtocol, old(FactsNow(cfg.useAtProtocol, PoweredDown())))
      ensures driver != null && (mode == AtProtocol || mode == AtShutdown) ==> Silent(cfg.at)
      ensures Passed(old(driver), old(events), cfg.at)
      ensures lastProgress == if Version() != old(Version()) then clock.now else old(lastProgress)
    {
      hide DriverValid, TraceValid, PowerFits, OnlyPasses, Run, Initial, SentAt, DriverObject.Value, AtMostOneSubmitted,
           NextMode, FactsFit, FactsNow, Rank;
      var origVersion, origBusyCount := Version(), BusyCount();
      first := SettleAll(cfg);
      var busy, progress := Busy(origBusyCount), origVersion != Version();
      ghost var inCharge := AtInCharge();
      Conclude(busy, progress);
      assert AtInCharge() ==> inCharge && !busy;
    }

    /** Note a busy modem, the time of the latest progress, and whether polling is needed. */
    method Conclude(busy: bool, progress: bool)
      requires Valid() && (busy ==> driver != null && (mode == AtProtocol || mode == AtShutdown))
      modifies this`mode, this`trace, this`lastProgress, this`timerScheduled, clock
      ensures GraceIsGenuine(old(trace), trace, false)
      ensures Valid() && Footprint() == old(Footprint())
      ensures mode == if busy then AtBusy else old(mode)
      ensures lastProgress == if progress then clock.now else old(lastProgress)
      ensures timerScheduled == (old(timerScheduled) || NeedsPolling())
    {
      hide Valid, NeedsPolling;
      if busy {
        NoteBusy();
      }
      if progress {
        NoteProgress();
      }
      ScheduleTimer();
    }

    method ScheduleTimer()
      requires Valid()
      modifies this`timerScheduled
      ensures Valid() && timerScheduled == (old(timerScheduled) || NeedsPolling())
      ensures NeedsPolling() <==>
                || mode in {PoweringOn, AtShutdown, AtGraceDelay, PoweringOff, AtBusy}
                || (driver != null && (driver.control.outbound.Some? || driver.status.cmd.pending.Some?))
    {
      if NeedsPolling() {
        timerScheduled := true;
      }
    }

    method NoteBusy()
      requires Valid() && driver != null && (mode == AtProtocol || mode == AtShutdown)
      modifies this`mode, this`trace
      ensures Valid() && mode == AtBusy && GraceIsGenuine(old(trace), trace, false)
    {
      hide Run, Initial, AtMostOneSubmitted, DriverObject.Value, Orderly;
      Enter(AtBusy, clock.now, false);
    }

    method NoteProgress()
      requires Valid()
      modifies this`lastProgress, clock
      ensures Valid() && lastProgress == clock.now
    {
      hide Run, Initial, AtMostOneSubmitted, DriverObject.Value, Orderly;
      lastProgress := clock.ElapsedMs();
    }

    /** Cancel a command whose response is overdue: after 90 s if it hangs up, after 600 ms otherwise. */
    method CancelOverdueCommand() returns (ghost overdue: bool)
      requires Valid()
      modifies this`events, clock, Footprint()
      ensures Valid() && Footprint() == old(Footprint()) && old(clock.now) <= clock.now
      ensures overdue <==>
                && driver != null && old(driver.status.cmd.pending).Some?
                && clock.now - lastProgress > if old(In(driver.control.ops[HANG_UP], Submitted)) then 90000 else 600
      ensures events == old(events) + if overdue then [Event.Timeout] else []
      ensures unchanged(this`mode, this`driver, this`trace, this`lastProgress, this`timerScheduled)
      ensures driver != null ==>
                driver.Value() == if overdue then Cancelled(old(driver.Value())) else old(driver.Value())
    {
      hide Run, Initial;
      overdue := false;
      if ResponseOutstanding() {
        var t := clock.ElapsedMs();
        if t - lastProgress > TimeoutMs(driver.control.ops) {
          overdue := true;
          RunAppend(Initial(SETTINGS), events, Event.Timeout);
          driver.CancelCommand();
          events := events + [Event.Timeout];
        }
      }
    }

    /** Poll the state of a call that was placed and is not yet over. */
    method PollCallList()
      requires Valid()
      modifies this`events, Footprint()
      ensures Valid() && Footprint() == old(Footprint())
      ensures events == old(events)
                + if driver != null && old(driver.control.outbound).Some? then [Event.PollCalls] else []
      ensures unchanged(this`mode, this`driver, this`trace, this`lastProgress, this`timerScheduled, clock)
      ensures driver != null ==>
                driver.Value() == if old(driver.control.outbound).Some? then CallListInvalidated(old(driver.Value()))
                                  else old(driver.Value())
    {
      hide Run, Initial;
      if OutboundCall() {
        RunAppend(Initial(SETTINGS), events, Event.PollCalls);
        driver.InvalidateCallList();
        events := events + [Event.PollCalls];
      }
    }

    /** A timeout polls the call list of a placed call and cancels an overdue command, in this order, and
        then works like a change of the configuration. */
    method HandleTimer(cfg: MainConfig) returns (ghost overdue: bool, ghost at: nat, ghost first: Facts)
      requires Valid()
      modifies this, clock, power, power.pin, commands, responses, Footprint()
      ensures old(trace) <= trace
      ensures Valid() && (Footprint() == old(Footprint()) || fresh(Footprint()))
      ensures timerScheduled == NeedsPolling()
      ensures old(clock.now) <= at
      ensures overdue <==>
                && old(driver != null && driver.status.cmd.pending.Some?)
                && at - old(lastProgress) > if old(driver != null && In(driver.control.ops[HANG_UP], Submitted)) then 90000 else 600
      ensures Passed(old(driver), old(events)
                + (if old(driver != null && driver.control.outbound.Some?) then [Event.PollCalls] else [])
                + (if overdue then [Event.Timeout] else []), cfg.at)
      ensures mode == AtBusy || Moved(if old(mode) == AtBusy then AtProtocol else old(mode), mode, cfg.power, first)
      ensures first.useAt == cfg.useAtProtocol && (old(mode) == AtShutdown ==> first.heard == old(PoweredDown()))
      ensures driver != null && (mode == AtProtocol || mode == AtShutdown) ==> Silent(cfg.at)
    {
      hide DriverValid, TraceValid, PowerFits, Follows, Silent, Run, Initial, NextMode, Rank;
      TimerFired();
      PollCallList();
      overdue := CancelOverdueCommand();
      at := clock.now;
      first := HandleConfig(cfg);
    }

    /** A busy modem gets another chance. */
    method TimerFired()
      requires Valid()
      modifies this`mode, this`trace, this`timerScheduled
      ensures GraceIsGenuine(old(trace), trace, false)
      ensures Valid() && Footprint() == old(Footprint())
      ensures mode == (if old(mode) == AtBusy then AtProtocol else old(mode)) && !timerScheduled
    {
      hide Run, Initial, AtMostOneSubmitted, DriverObject.Value, Orderly;
      timerScheduled := false;
      if mode == AtBusy {
        Enter(AtProtocol, clock.now, false);
      }
    }

    /** Any number of configuration updates and timeouts, each with more data from the modem. The
        history of power states only grows, and every time the modem is cut off it was shut down
        before. */
    method Serve(calls: seq<Call>)
      requires Valid()
      modifies this, clock, power, power.pin, commands, responses, Footprint()
      ensures Valid() && old(trace) <= trace && Polite(trace)
    {
      hide Valid, Footprint, NeedsPolling, Polite;
      for i := 0 to |calls|
        invariant Valid() && (Footprint() == old(Footprint()) || fresh(Footprint()))
        invariant old(trace) <= trace
      {
        Receive(calls[i].data);
        match calls[i]
        case ConfigUpdate(cfg, _) =>
          ghost var first := HandleConfig(cfg);
        case Timeout(cfg, _) =>
          ghost var overdue, at, first := HandleTimer(cfg);
      }
      HistoryIsPolite();
    }

    method Receive(data: seq<string>)
      requires Valid()
      modifies responses
      ensures Valid() && responses.chunks == old(responses.chunks) + data
    {
      responses.chunks := responses.chunks + data;
    }

    lemma HistoryIsPolite()
      requires Valid()
      ensures Polite(trace)
    {
      OrderlyIsPolite(trace);
    }
  }
}
