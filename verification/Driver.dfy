/** The AT-protocol driver that ties buffer, status, settings and operations together
    (src/driver/modem/at_protocol/driver.h). */
module Drivers {
  import opened Options
  import opened ReadBuffers
  import opened Qcfgs
  import opened Statuses
  import opened Controls

  /** The state of a driver, apart from its read buffer. */
  datatype Driver = Driver(status: Status, entries: seq<Entry>, control: Control, reported: Option<Call>)

  function Initial(entries: seq<Entry>): Driver {
    Driver(INITIAL, Invalidated(entries), IDLE, None)
  }

  // ---- what one call of `apply` computes ----

  function ApplyLines(s: Status, es: seq<Entry>, lines: seq<string>): (Status, seq<Entry>)
    decreases |lines|
  {
    if lines == [] then (s, es)
    else
      var m := Parse(lines[0]);
      ApplyLines(Apply(s, es, m), EntriesAfter(es, s.cmd.pending, m), lines[1..])
  }

  function AfterSend(s: Status, sent: Option<Sent>): Status {
    if sent.Some? then AfterSubmit(s, sent.value.command) else s
  }

  function ReportedCall(reported: Option<Call>, before: Status, after: Status): Option<Call> {
    if after.calls.upToDate then after.calls.current
    else if before.counts.noCarrier != after.counts.noCarrier then None
    else reported
  }

  /** The operations once the lines are taken into account. */
  function PreparedFor(d: Driver, lines: seq<string>, cfg: Config): Control {
    var heard := ApplyLines(d.status, d.entries, lines);
    Prepared(d.control, heard.0, heard.1, cfg)
  }

  function SentIn(d: Driver, lines: seq<string>, cfg: Config): Option<Sent> {
    SentBy(PreparedFor(d, lines, cfg))
  }

  /** `apply`, given the lines that its reads obtain. */
  function Applied(d: Driver, lines: seq<string>, cfg: Config): Driver {
    var heard := ApplyLines(d.status, d.entries, lines);
    var after := AfterSend(heard.0, SentIn(d, lines, cfg));
    Driver(after, heard.1, Launch(PreparedFor(d, lines, cfg)),
           ReportedCall(d.reported, d.status, after))
  }

  /** `cancel_command`, the response to a timeout. */
  function Cancelled(d: Driver): Driver {
    var s := if d.status.cmd.pending.Some? then AfterReset(d.status) else d.status;
    d.(status := s.(link := s.link.(atOk := false)),
       control := if d.status.cmd.pending.Some?
                  then d.control.(ops := AfterCancel(d.control.ops)) else d.control)
  }

  function CallListInvalidated(d: Driver): Driver {
    d.(status := d.status.(calls := d.status.calls.(upToDate := false)))
  }

  // ---- reading until the modem has nothing more to say ----

  /** Lines obtained by filling and consuming in turn, the bytes left in the buffer, and what is
      left in the channel. */
  function Drain(max: nat, buf: string, chunks: seq<string>): (r: (seq<string>, string, seq<string>))
    requires |buf| <= 2 * max
    ensures |r.1| <= 2 * max && BytesLeft(r.2) <= BytesLeft(chunks)
    decreases BytesLeft(chunks)
  {
    var next := NextRead(chunks, 2 * max - |buf|);
    if next.0 == [] then ([], buf, next.1)
    else
      var now := Consume(max, buf + next.0);
      var later := Drain(max, now.1, next.1);
      (now.0 + later.0, later.1, later.2)
  }

  lemma {:induction false} ApplyLinesConcat(s: Status, es: seq<Entry>, a: seq<string>, b: seq<string>)
    ensures ApplyLines(s, es, a + b)
         == ApplyLines(ApplyLines(s, es, a).0, ApplyLines(s, es, a).1, b)
    decreases |a|
  {
    if a == [] {
      assert a + b == b;
    } else {
      assert (a + b)[1..] == a[1..] + b;
      var m := Parse(a[0]);
      ApplyLinesConcat(Apply(s, es, m), EntriesAfter(es, s.cmd.pending, m), a[1..], b);
    }
  }

  /** `heard` was interpreted already, `rest` is what is still to come. */
  predicate Continues(heard: seq<string>, rest: (seq<string>, string, seq<string>),
                    all: (seq<string>, string, seq<string>)) {
    heard + rest.0 == all.0 && rest.1 == all.1 && rest.2 == all.2
  }

  lemma DrainContinues(max: nat, buf: string, chunks: seq<string>, heard: seq<string>,
                       all: (seq<string>, string, seq<string>),
                       more: bool, lines: seq<string>, buf': string, chunks': seq<string>)
    requires |buf| <= 2 * max && Continues(heard, Drain(max, buf, chunks), all)
    requires Round(max, buf, chunks, more, lines, buf', chunks')
    ensures |buf'| <= 2 * max
    ensures more ==> Continues(heard + lines, Drain(max, buf', chunks'), all)
    ensures more ==> BytesLeft(chunks') < BytesLeft(chunks)
    ensures !more ==> all == (heard, buf', chunks')
  {
    hide Consume, NextRead, BytesLeft;
    if more {
      var later := Drain(max, buf', chunks');
      assert heard + (lines + later.0) == (heard + lines) + later.0;
    } else {
      assert heard + [] == heard;
    }
  }

  class DriverObject {
    const qcfg: Qcfg
    const status: StatusObject
    const readBuffer: ReadBuffer
    const control: ControlObject
    var currentCall: Option<Call>

    ghost predicate Valid()
      reads this, readBuffer, control, status
    {
      control.status == status && status.qcfg == qcfg && readBuffer.Valid()
    }

    function Value(): Driver
      reads this, qcfg, status, control
    {
      Driver(status.Value(), qcfg.entries, control.Value(), currentCall)
    }

    ghost function Footprint(): set<object> {
      {this, qcfg, status, control, readBuffer, readBuffer.buffer}
    }

    constructor (qcfg: Qcfg, maxLineLen: nat)
      requires 0 < maxLineLen
      ensures Valid() && readBuffer.maxLineLen == maxLineLen && readBuffer.Content() == []
      ensures this.qcfg == qcfg
      ensures Value() == Driver(INITIAL, qcfg.entries, IDLE, None)
      ensures fresh(status) && fresh(control) && fresh(readBuffer) && fresh(readBuffer.buffer)
    {
      var st := new StatusObject(qcfg);
      this.qcfg := qcfg;
      status := st;
      readBuffer := new ReadBuffer(maxLineLen);
      control := new ControlObject(st);
      currentCall := None;
    }

    /** Read and interpret everything that the modem has to say. */
    method Listen(responseChannel: ResponseChannel)
      requires Valid()
      modifies status, qcfg, readBuffer, readBuffer.buffer, responseChannel
      ensures Valid() && readBuffer.payloadBytes <= 2 * readBuffer.maxLineLen
      ensures var drained := Drain(readBuffer.maxLineLen, old(readBuffer.Content()), old(responseChannel.chunks));
              && (status.Value(), qcfg.entries)
                 == ApplyLines(old(status.Value()), old(qcfg.entries), drained.0)
              && readBuffer.Content() == drained.1
              && responseChannel.chunks == drained.2
    {
      ghost var max := readBuffer.maxLineLen;
      ghost var heard: seq<string> := [];
      ghost var s, es := status.Value(), qcfg.entries;
      ghost var all := Drain(max, readBuffer.Content(), responseChannel.chunks);
      assert [] + all.0 == all.0;
      var more := true;
      while more
        invariant Valid()
        invariant (status.Value(), qcfg.entries) == ApplyLines(s, es, heard)
        invariant more ==> Continues(heard, Drain(max, readBuffer.Content(), responseChannel.chunks), all)
        invariant !more ==> all == (heard, readBuffer.Content(), responseChannel.chunks)
        decreases more, BytesLeft(responseChannel.chunks)
      {
        ghost var buf, chunks := readBuffer.Content(), responseChannel.chunks;
        var lines;
        more, lines := readBuffer.Read(responseChannel);
        DrainContinues(max, buf, chunks, heard, all, more, lines, readBuffer.Content(), responseChannel.chunks);
        if more {
          Interpret(lines);
          ApplyLinesConcat(s, es, heard, lines);
          heard := heard + lines;
        }
      }
    }

    method Interpret(lines: seq<string>)
      requires Valid()
      modifies status, qcfg
      ensures (status.Value(), qcfg.entries)
           == ApplyLines(old(status.Value()), old(qcfg.entries), lines)
    {
      ghost var s, es := status.Value(), qcfg.entries;
      for i := 0 to |lines|
        invariant ApplyLines(s, es, lines) == ApplyLines(status.Value(), qcfg.entries, lines[i..])
      {
        assert lines[i..][1..] == lines[i + 1..];
        status.ApplyLine(lines[i]);
      }
    }

    method Apply(cfg: Config, commandChannel: CommandChannel, responseChannel: ResponseChannel)
      requires Valid()
      modifies this, status, qcfg, control, readBuffer, readBuffer.buffer, commandChannel, responseChannel
      ensures Valid()
      ensures var drained := Drain(readBuffer.maxLineLen, old(readBuffer.Content()), old(responseChannel.chunks));
              && Value() == Applied(old(Value()), drained.0, cfg)
              && readBuffer.Content() == drained.1
              && responseChannel.chunks == drained.2
              && var sent := SentIn(old(Value()), drained.0, cfg);
                 commandChannel.sent == old(commandChannel.sent)
                   + (if sent.Some? then [sent.value.command] else [])
    {
      hide Drain, ApplyLines, Prepared, Launch, SentBy;
      var origNoCarrierCount := status.counts.noCarrier;

      Listen(responseChannel);

      var filter := new CommandFilter(commandChannel, status);
      control.ApplyConfig(cfg, filter);

      if origNoCarrierCount != status.counts.noCarrier {
        currentCall := None;
      }
      if status.calls.upToDate {
        currentCall := None;
        if status.calls.current.Some? {
          currentCall := status.calls.current;
        }
      }
    }

    method CancelCommand()
      requires Valid()
      modifies status, control
      ensures Valid() && Value() == Cancelled(old(Value()))
    {
      if status.cmd.pending.Some? {
        control.CancelCommand();
        status.CommandCanceled();
      }
      status.link := status.link.(atOk := false);
    }

    method InvalidateCallList()
      requires Valid()
      modifies status
      ensures Valid() && Value() == CallListInvalidated(old(Value()))
    {
      status.calls := status.calls.(upToDate := false);
    }
  }
}
