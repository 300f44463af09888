/** Runs of any number of SCP sessions against a processor that reflects every sequence number once
    (include/scp_session/scp_session.h, src/driver/platform/a64/scp.h). */
module ScpRuns {
  import opened Options
  import opened ScpBuffers
  import opened ScpDrivers
  import opened ScpClients

  // ---- clients, processor and their history ----

  /** The call of `_execute` that a client is in. Once the driver has picked up the request,
      `ticket` is the number of the submission. */
  datatype Call = Call(program: string, ticket: Option<nat>)

  /** `seen` counts the response signals that the client has handled. */
  datatype Client = Client(id: nat, seen: nat, call: Option<Call>)

  datatype Submission = Submission(owner: nat, program: string)

  datatype Execution = Execution(program: string, output: string)

  datatype Answer = Output(text: string) | ResponseTooLarge | RequestTooLarge

  /** How a call ended: with the response function or with the error function. */
  datatype Outcome = Outcome(owner: nat, program: string, ticket: Option<nat>, answer: Answer)

  datatype System = System(scp: Scp, clients: seq<Client>, nextId: nat,
                           submissions: seq<Submission>, executions: seq<Execution>, outcomes: seq<Outcome>)

  /** A session opens with some content of its dataspace, a session closes, a client calls
      `_execute`, a client wakes up (whether or not there is a response), the processor runs the
      submitted program, an interrupt occurs (whether or not the processor caused it). */
  datatype Step = Open(place: nat, ds: string)
                | Close(i: nat)
                | Execute(i: nat, program: string)
                | Wake(i: nat)
                | Compute(output: string)
                | Interrupt

  predicate WellFormed(sys: System) { Sized(sys.scp) && |sys.clients| == |sys.scp.sessions| }

  predicate Possible(sys: System, step: Step) {
    match step
    case Open(place, ds) => place <= |sys.clients| && |ds| == DS_SIZE
    case Close(i) => i < |sys.clients|
    case Execute(i, program) => i < |sys.clients| && sys.clients[i].call.None?
    case Wake(i) => i < |sys.clients| && sys.clients[i].call.Some?
    case Compute(output) => sys.scp.mailbox.toScp.Some? && sys.scp.mib.count <= CAPACITY
    case Interrupt => true
  }

  /** The driver schedules; if it picks up a request, the client gets its ticket. */
  function Reschedule(sys: System): (r: System)
    requires WellFormed(sys)
    ensures WellFormed(r)
  {
    var i := NextPending(sys.scp.sessions);
    if sys.scp.busy || i == |sys.scp.sessions| then sys
    else
      var s, c := sys.scp.sessions[i], sys.clients[i];
      sys.(scp := AfterSubmit(sys.scp, i),
           clients := sys.clients[i := if c.call.None? then c
                                       else c.(call := Some(c.call.value.(ticket := Some(|sys.submissions|))))],
           submissions := sys.submissions + [Submission(c.id, s.ds[..s.requestLen])])
  }

  function AnswerOf(s: Session): Answer
    requires |s.ds| == DS_SIZE
  {
    if s.result.Bytes? && s.result.len <= DS_SIZE then Output(s.ds[..s.result.len]) else ResponseTooLarge
  }

  /** What the processor puts into its output buffer. */
  function Written(mob: Buffer, output: string): (r: Buffer)
    requires |mob.chars| == CAPACITY
    ensures |r.chars| == CAPACITY
  {
    Buffer(|output|, Stored(mob.chars, if |output| <= CAPACITY then output else output[..CAPACITY]))
  }

  function Next(sys: System, step: Step): (r: System)
    requires WellFormed(sys) && Possible(sys, step)
    ensures WellFormed(r)
  {
    var x := sys.scp;
    match step
    case Open(place, ds) =>
      sys.(scp := Opened(x, place, ds),
           clients := sys.clients[..place] + [Client(sys.nextId, 0, None)] + sys.clients[place..],
           nextId := sys.nextId + 1)
    case Close(i) =>
      sys.(scp := Closed(x, i),
           clients := sys.clients[..i] + sys.clients[i + 1..])
    case Execute(i, program) =>
      var c := sys.clients[i];
      if |program| > MAX_REQUEST_LEN then
        sys.(outcomes := sys.outcomes + [Outcome(c.id, program, None, RequestTooLarge)])
      else
        var marshalled := x.sessions[i].(ds := program + x.sessions[i].ds[|program|..]);
        Reschedule(sys.(scp := Requested(x.(sessions := x.sessions[i := marshalled]), i, |program|),
                        clients := sys.clients[i := c.(call := Some(Call(program, None)))]))
    case Wake(i) =>
      var s, c := x.sessions[i], sys.clients[i];
      if s.result == Unknown then sys.(clients := sys.clients[i := c.(seen := s.responses)])
      else sys.(clients := sys.clients[i := c.(seen := s.responses, call := None)],
                outcomes := sys.outcomes + [Outcome(c.id, c.call.value.program, c.call.value.ticket, AnswerOf(s))])
    case Compute(output) =>
      sys.(scp := x.(mailbox := Mailbox(None, x.mailbox.toScp), mob := Written(x.mob, output)),
           executions := sys.executions + [Execution(View(x.mib.chars)[..x.mib.count], output)])
    case Interrupt => Reschedule(sys.(scp := Collected(x)))
  }

  // ---- what holds in every reachable state ----

  /** The answer that a program with the given output deserves. */
  function AnswerTo(output: string): Answer {
    if |output| >= 1000 then ResponseTooLarge else Output(output)
  }

  /** The call ended with the answer to the execution of its own program. */
  predicate OutcomeIsRight(o: Outcome, submissions: seq<Submission>, executions: seq<Execution>) {
    if o.answer == RequestTooLarge then |o.program| > MAX_REQUEST_LEN && o.ticket.None?
    else
      && o.ticket.Some? && o.ticket.value < |executions| && o.ticket.value < |submissions|
      && submissions[o.ticket.value] == Submission(o.owner, o.program)
      && executions[o.ticket.value].program == o.program
      && 0 < |o.program| <= MAX_REQUEST_LEN
      && o.answer == AnswerTo(executions[o.ticket.value].output)
  }

  /** The session holds the answer. */
  predicate Holds(s: Session, output: string)
    requires |s.ds| == DS_SIZE
  {
    if |output| >= SATURATED then s.result == TooLarge
    else s.result == Bytes(|output|) && s.ds[..|output|] == output
  }

  /** The session is in the state that fits the call of its client. */
  predicate Fits(s: Session, c: Client, x: Scp, submissions: seq<Submission>, executions: seq<Execution>)
    requires |s.ds| == DS_SIZE
  {
    c.seen <= s.responses &&
    match c.call
    case None => s.requestLen == 0 && s.execId.None?
    case Some(Call(program, None)) =>
      && s.requestLen == |program| <= MAX_REQUEST_LEN && s.execId.None? && s.result == Unknown
      && s.ds[..|program|] == program
    case Some(Call(program, Some(ticket))) =>
      && s.requestLen == 0 && 0 < |program| <= MAX_REQUEST_LEN
      && ticket < |submissions| && submissions[ticket] == Submission(c.id, program)
      && if s.execId.Some?
         then x.busy && s.execId.value == x.lastSubmit && ticket == |submissions| - 1 && s.result == Unknown
         else ticket < |executions| && Holds(s, executions[ticket].output) && c.seen < s.responses
  }

  /** The program is on its way to the processor. */
  predicate Submitting(x: Scp, submissions: seq<Submission>, executions: seq<Execution>)
    requires |x.mib.chars| == CAPACITY
  {
    && x.mailbox == Mailbox(Some(x.lastSubmit), None)
    && |submissions| == |executions| + 1
    && x.mib.count <= CAPACITY
    && View(x.mib.chars)[..x.mib.count] == submissions[|submissions| - 1].program
  }

  /** The response is on its way back. */
  predicate Responding(x: Scp, submissions: seq<Submission>, executions: seq<Execution>)
    requires |x.mob.chars| == CAPACITY
  {
    && x.mailbox == Mailbox(None, Some(x.lastSubmit))
    && |submissions| == |executions| > 0
    && var output := executions[|executions| - 1].output;
       x.mob.count == |output| && (|output| <= CAPACITY ==> View(x.mob.chars)[..|output|] == output)
  }

  predicate DeviceFits(x: Scp, submissions: seq<Submission>, executions: seq<Execution>)
    requires |x.mib.chars| == CAPACITY && |x.mob.chars| == CAPACITY
  {
    if x.busy then Submitting(x, submissions, executions) || Responding(x, submissions, executions)
    else x.mailbox == Mailbox(None, None) && |submissions| == |executions|
  }

  /** The processor ran what was submitted, in order. */
  predicate InOrder(submissions: seq<Submission>, executions: seq<Execution>) {
    && |executions| <= |submissions|
    && (forall k :: 0 <= k < |submissions| ==> submissions[k].program != [])
    && (forall k :: 0 <= k < |executions| ==> executions[k].program == submissions[k].program)
  }

  function Ticket(c: Client): Option<nat> { if c.call.Some? then c.call.value.ticket else None }

  /** No submission serves two calls. */
  predicate TicketsDiffer(clients: seq<Client>, outcomes: seq<Outcome>) {
    && (forall i, j :: 0 <= i < j < |clients| && Ticket(clients[i]).Some? ==> Ticket(clients[i]) != Ticket(clients[j]))
    && (forall i, j :: 0 <= i < |clients| && 0 <= j < |outcomes| && Ticket(clients[i]).Some? ==>
          Ticket(clients[i]) != outcomes[j].ticket)
    && (forall i, j :: 0 <= i < j < |outcomes| && outcomes[i].ticket.Some? ==> outcomes[i].ticket != outcomes[j].ticket)
  }

  predicate AllFit(sys: System)
    requires WellFormed(sys)
  {
    forall i :: 0 <= i < |sys.clients| ==>
      Fits(sys.scp.sessions[i], sys.clients[i], sys.scp, sys.submissions, sys.executions)
  }

  predicate OneExecuting(sessions: seq<Session>) {
    forall i, j :: 0 <= i < j < |sessions| ==> sessions[i].execId.None? || sessions[j].execId.None?
  }

  predicate OutcomesRight(sys: System) {
    forall j :: 0 <= j < |sys.outcomes| ==> OutcomeIsRight(sys.outcomes[j], sys.submissions, sys.executions)
  }

  predicate Inv(sys: System) {
    && WellFormed(sys)
    && AllFit(sys)
    && OneExecuting(sys.scp.sessions)
    && DeviceFits(sys.scp, sys.submissions, sys.executions)
    && InOrder(sys.submissions, sys.executions)
    && TicketsDiffer(sys.clients, sys.outcomes)
    && OutcomesRight(sys)
  }

  // ---- every step keeps it ----

  lemma RescheduleKeepsInv(sys: System)
    requires Inv(sys)
    ensures Inv(Reschedule(sys))
    ensures Reschedule(sys).scp == Scheduled(sys.scp)
  {
    var x := sys.scp;
    var i := NextPending(x.sessions);
    if !x.busy && i < |x.sessions| {
      SubmitKeepsInv(sys, i);
    }
  }

  lemma SubmitKeepsInv(sys: System, i: nat)
    requires Inv(sys) && !sys.scp.busy
    requires i == NextPending(sys.scp.sessions) < |sys.scp.sessions|
    ensures Inv(Reschedule(sys))
  {
    var x, r := sys.scp, Reschedule(sys);
    var s, c := x.sessions[i], sys.clients[i];
    assert Fits(s, c, x, sys.submissions, sys.executions);
    var program := s.ds[..s.requestLen];
    StoredIsSeen(x.mib.chars, program);
    assert Submitting(r.scp, r.submissions, r.executions);
    hide View, Stored, NextPending, Holds, Submitting, OutcomeIsRight;
    forall j | 0 <= j < |x.sessions|
      ensures Fits(r.scp.sessions[j], r.clients[j], r.scp, r.submissions, r.executions)
      ensures x.sessions[j].execId.None?
    {
      assert Fits(x.sessions[j], sys.clients[j], x, sys.submissions, sys.executions);
    }
    assert InOrder(r.submissions, r.executions);
    hide Fits, InOrder;
    assert OutcomesRight(r) by {
      forall j | 0 <= j < |r.outcomes| ensures OutcomeIsRight(r.outcomes[j], r.submissions, r.executions) {
        LaterSubmission(sys.outcomes[j], sys.submissions, sys.executions, Submission(c.id, program));
      }
    }
    assert TicketsDiffer(r.clients, r.outcomes) by {
      FreshTicket(sys, i);
    }
  }

  lemma LaterSubmission(o: Outcome, submissions: seq<Submission>, executions: seq<Execution>, s: Submission)
    requires OutcomeIsRight(o, submissions, executions)
    ensures OutcomeIsRight(o, submissions + [s], executions)
  {
  }

  /** The next submission has not been used as a ticket. */
  lemma FreshTicket(sys: System, i: nat)
    requires Inv(sys) && i < |sys.clients| && Ticket(sys.clients[i]).None?
    ensures forall c: Client :: Ticket(c) == Some(|sys.submissions|) ==>
              TicketsDiffer(sys.clients[i := c], sys.outcomes)
  {
    forall j | 0 <= j < |sys.clients| ensures Ticket(sys.clients[j]) != Some(|sys.submissions|) {
      assert Fits(sys.scp.sessions[j], sys.clients[j], sys.scp, sys.submissions, sys.executions);
    }
    forall j | 0 <= j < |sys.outcomes| ensures sys.outcomes[j].ticket != Some(|sys.submissions|) {
      assert OutcomeIsRight(sys.outcomes[j], sys.submissions, sys.executions);
    }
    hide AllFit, DeviceFits, OutcomesRight, InOrder, OneExecuting;
  }

  /** The response reaches exactly the session that waits for it. */
  lemma CollectKeepsInv(sys: System)
    requires Inv(sys)
    ensures Inv(sys.(scp := Collected(sys.scp)))
  {
    hide View, OutcomeIsRight, InOrder, TicketsDiffer;
    var x, r := sys.scp, sys.(scp := Collected(sys.scp));
    if x.mailbox.fromScp.Some? {
      var output := sys.executions[|sys.executions| - 1].output;
      forall i | 0 <= i < |sys.clients|
        ensures Fits(r.scp.sessions[i], sys.clients[i], r.scp, sys.submissions, sys.executions)
        ensures r.scp.sessions[i].execId.None?
      {
        var s := x.sessions[i];
        assert Fits(s, sys.clients[i], x, sys.submissions, sys.executions);
        if s.execId.Some? {
          ResponseIsHeld(s, x.lastSubmit, x.mob, output);
        }
      }
      hide View, Fits;
      assert AllFit(r);
    }
  }

  lemma ResponseIsHeld(s: Session, id: nat, mob: Buffer, output: string)
    requires |s.ds| == DS_SIZE && |mob.chars| == CAPACITY && s.execId == Some(id)
    requires mob.count == |output| && (|output| <= CAPACITY ==> View(mob.chars)[..|output|] == output)
    ensures var r := Delivered(s, id, mob);
            && |r.ds| == DS_SIZE && r.execId.None? && r.requestLen == s.requestLen && r.responses == s.responses + 1
            && Holds(r, output)
  {
  }

  lemma InterruptKeepsInv(sys: System)
    requires Inv(sys)
    ensures Inv(Next(sys, Interrupt))
  {
    assert WellFormed(sys);
    hide Inv;
    CollectKeepsInv(sys);
    RescheduleKeepsInv(sys.(scp := Collected(sys.scp)));
  }

  lemma ComputeKeepsInv(sys: System, output: string)
    requires Inv(sys) && Possible(sys, Compute(output))
    ensures Inv(Next(sys, Compute(output)))
  {
    var x, r := sys.scp, Next(sys, Compute(output));
    assert x.busy && Submitting(x, sys.submissions, sys.executions);
    assert |output| <= CAPACITY ==> View(r.scp.mob.chars)[..|output|] == output by {
      StoredIsSeen(x.mob.chars, if |output| <= CAPACITY then output else output[..CAPACITY]);
    }
    hide View, Stored, Holds;
    assert Responding(r.scp, r.submissions, r.executions);
    assert InOrder(r.submissions, r.executions);
    forall i | 0 <= i < |sys.clients|
      ensures Fits(x.sessions[i], sys.clients[i], r.scp, r.submissions, r.executions)
    {
      assert Fits(x.sessions[i], sys.clients[i], x, sys.submissions, sys.executions);
    }
    forall j | 0 <= j < |sys.outcomes| ensures OutcomeIsRight(sys.outcomes[j], r.submissions, r.executions) {
      assert OutcomeIsRight(sys.outcomes[j], sys.submissions, sys.executions);
    }
    hide Fits, OutcomeIsRight, Submitting, Responding, InOrder;
  }

  /** The sessions of `r` are sessions of `sys` in the same order, or new ones. Session `k` was
      session `from[k]`, with -1 for a new one. */
  predicate Rearranged(sys: System, r: System, from: seq<int>) {
    && WellFormed(sys) && WellFormed(r) && |from| == |r.clients|
    && r.submissions == sys.submissions && r.executions == sys.executions && r.outcomes == sys.outcomes
    && r.scp == sys.scp.(sessions := r.scp.sessions)
    && (forall k :: 0 <= k < |from| ==> -1 <= from[k] < |sys.clients|)
    && (forall k :: 0 <= k < |from| && from[k] == -1 ==>
          r.clients[k].call.None? && r.clients[k].seen <= r.scp.sessions[k].responses
          && r.scp.sessions[k].requestLen == 0 && r.scp.sessions[k].execId.None?)
    && (forall k :: 0 <= k < |from| && from[k] >= 0 ==>
          r.clients[k] == sys.clients[from[k]] && r.scp.sessions[k] == sys.scp.sessions[from[k]])
    && (forall j, k :: 0 <= j < k < |from| && from[j] >= 0 && from[k] >= 0 ==> from[j] < from[k])
  }

  lemma RearrangedKeepsInv(sys: System, r: System, from: seq<int>)
    requires Inv(sys) && Rearranged(sys, r, from)
    ensures Inv(r)
  {
    hide View, Holds, OutcomeIsRight, InOrder;
    assert DeviceFits(r.scp, r.submissions, r.executions);
    forall k | 0 <= k < |r.clients| ensures Fits(r.scp.sessions[k], r.clients[k], r.scp, r.submissions, r.executions) {
      if from[k] >= 0 {
        assert Fits(sys.scp.sessions[from[k]], sys.clients[from[k]], sys.scp, sys.submissions, sys.executions);
      }
    }
    hide Fits, DeviceFits;
    assert OneExecuting(r.scp.sessions);
    assert TicketsDiffer(r.clients, r.outcomes);
  }

  lemma InsertedAt<T>(a: seq<T>, p: nat, x: T)
    requires p <= |a|
    ensures var b := a[..p] + [x] + a[p..];
            |b| == |a| + 1 && forall k :: 0 <= k < |b| ==> b[k] == if k < p then a[k] else if k == p then x else a[k - 1]
  {
  }

  lemma RemovedAt<T>(a: seq<T>, p: nat)
    requires p < |a|
    ensures var b := a[..p] + a[p + 1..];
            |b| == |a| - 1 && forall k :: 0 <= k < |b| ==> b[k] == if k < p then a[k] else a[k + 1]
  {
  }

  lemma OpenKeepsInv(sys: System, place: nat, ds: string)
    requires Inv(sys) && Possible(sys, Open(place, ds))
    ensures Inv(Next(sys, Open(place, ds)))
  {
    assert WellFormed(sys);
    hide Inv, Rearranged;
    var r := Next(sys, Open(place, ds));
    var from := seq(|r.clients|, k => if k < place then k else if k == place then -1 else k - 1);
    OpenRearranges(sys, place, ds, from);
    RearrangedKeepsInv(sys, r, from);
  }

  lemma OpenRearranges(sys: System, place: nat, ds: string, from: seq<int>)
    requires WellFormed(sys) && Possible(sys, Open(place, ds)) && |from| == |sys.clients| + 1
    requires forall k :: 0 <= k < |from| ==> from[k] == if k < place then k else if k == place then -1 else k - 1
    ensures Rearranged(sys, Next(sys, Open(place, ds)), from)
  {
    InsertedAt(sys.clients, place, Client(sys.nextId, 0, None));
    InsertedAt(sys.scp.sessions, place, Session(ds, 0, Unknown, 0, None));
    var r := Next(sys, Open(place, ds));
    assert WellFormed(r);
    hide Sized, Next;
  }

  lemma CloseKeepsInv(sys: System, i: nat)
    requires Inv(sys) && Possible(sys, Close(i))
    ensures Inv(Next(sys, Close(i)))
  {
    assert WellFormed(sys);
    hide Inv, Rearranged;
    var r := Next(sys, Close(i));
    var from := seq(|r.clients|, k => if k < i then k else k + 1);
    CloseRearranges(sys, i, from);
    RearrangedKeepsInv(sys, r, from);
  }

  lemma CloseRearranges(sys: System, i: nat, from: seq<int>)
    requires WellFormed(sys) && Possible(sys, Close(i)) && |from| == |sys.clients| - 1
    requires forall k :: 0 <= k < |from| ==> from[k] == if k < i then k else k + 1
    ensures Rearranged(sys, Next(sys, Close(i)), from)
  {
    RemovedAt(sys.clients, i);
    RemovedAt(sys.scp.sessions, i);
    var r := Next(sys, Close(i));
    assert WellFormed(r);
    hide Sized, Next;
  }

  lemma WakeKeepsInv(sys: System, i: nat)
    requires Inv(sys) && Possible(sys, Wake(i))
    ensures Inv(Next(sys, Wake(i)))
  {
    var r := Next(sys, Wake(i));
    var s, c := sys.scp.sessions[i], sys.clients[i];
    assert Fits(s, c, sys.scp, sys.submissions, sys.executions);
    if s.result != Unknown {
      var o := r.outcomes[|sys.outcomes|];
      assert OutcomeIsRight(o, sys.submissions, sys.executions);
      hide View, Holds, OutcomeIsRight, DeviceFits, InOrder, OneExecuting;
      forall k | 0 <= k < |r.clients| ensures Fits(r.scp.sessions[k], r.clients[k], r.scp, r.submissions, r.executions) {
        assert Fits(sys.scp.sessions[k], sys.clients[k], sys.scp, sys.submissions, sys.executions);
      }
      hide Fits;
      assert TicketsDiffer(r.clients, r.outcomes);
    }
  }

  lemma ExecuteKeepsInv(sys: System, i: nat, program: string)
    requires Inv(sys) && Possible(sys, Execute(i, program))
    ensures Inv(Next(sys, Execute(i, program)))
  {
    var x, c := sys.scp, sys.clients[i];
    assert Fits(x.sessions[i], c, x, sys.submissions, sys.executions);
    if |program| > MAX_REQUEST_LEN {
      TooLargeKeepsInv(sys, Outcome(c.id, program, None, RequestTooLarge));
    } else {
      var marshalled := x.sessions[i].(ds := program + x.sessions[i].ds[|program|..]);
      var r := sys.(scp := Requested(x.(sessions := x.sessions[i := marshalled]), i, |program|),
                    clients := sys.clients[i := c.(call := Some(Call(program, None)))]);
      assert Inv(r) by {
        assert Fits(r.scp.sessions[i], r.clients[i], r.scp, r.submissions, r.executions);
        hide View, Holds, OutcomeIsRight, InOrder;
        forall k | 0 <= k < |r.clients| && k != i
          ensures Fits(r.scp.sessions[k], r.clients[k], r.scp, r.submissions, r.executions)
        {
          assert Fits(sys.scp.sessions[k], sys.clients[k], sys.scp, sys.submissions, sys.executions);
        }
        hide Fits;
        assert DeviceFits(r.scp, r.submissions, r.executions);
        hide DeviceFits;
        assert TicketsDiffer(r.clients, r.outcomes);
      }
      RescheduleKeepsInv(r);
    }
  }

  lemma TooLargeKeepsInv(sys: System, o: Outcome)
    requires Inv(sys) && o.answer == RequestTooLarge && |o.program| > MAX_REQUEST_LEN && o.ticket.None?
    ensures Inv(sys.(outcomes := sys.outcomes + [o]))
  {
    var r := sys.(outcomes := sys.outcomes + [o]);
    assert OutcomeIsRight(o, sys.submissions, sys.executions);
    hide Fits, DeviceFits, InOrder, OneExecuting, OutcomeIsRight;
    assert AllFit(r);
    assert TicketsDiffer(r.clients, r.outcomes);
  }

  lemma NextKeepsInv(sys: System, step: Step)
    requires Inv(sys) && Possible(sys, step)
    ensures Inv(Next(sys, step))
  {
    hide Inv;
    match step
    case Open(place, ds) => OpenKeepsInv(sys, place, ds);
    case Close(i) => CloseKeepsInv(sys, i);
    case Execute(i, program) => ExecuteKeepsInv(sys, i, program);
    case Wake(i) => WakeKeepsInv(sys, i);
    case Compute(output) => ComputeKeepsInv(sys, output);
    case Interrupt => InterruptKeepsInv(sys);
  }

  // ---- whole runs ----

  /** Steps that are not possible do not happen. */
  function Run(sys: System, steps: seq<Step>): (r: System)
    requires WellFormed(sys)
    ensures WellFormed(r)
    decreases |steps|
  {
    if steps == [] then sys
    else Run(if Possible(sys, steps[0]) then Next(sys, steps[0]) else sys, steps[1..])
  }

  predicate Initial(sys: System) {
    && sys.clients == [] && sys.submissions == [] && sys.executions == [] && sys.outcomes == []
    && sys.scp.sessions == [] && !sys.scp.busy && sys.scp.mailbox == Mailbox(None, None)
    && Sized(sys.scp)
  }

  /** While the processor is idle, no request waits. */
  predicate Prompt(x: Scp) {
    !x.busy ==> forall i :: 0 <= i < |x.sessions| ==> x.sessions[i].requestLen == 0
  }

  lemma NextIsPrompt(sys: System, step: Step)
    requires WellFormed(sys) && Possible(sys, step) && Prompt(sys.scp)
    ensures Prompt(Next(sys, step).scp)
  {
    hide View, Stored;
  }

  lemma {:induction false} RunKeepsInv(sys: System, steps: seq<Step>)
    requires Inv(sys) && Prompt(sys.scp)
    ensures Inv(Run(sys, steps)) && Prompt(Run(sys, steps).scp)
    decreases |steps|
  {
    if steps != [] {
      assert WellFormed(sys);
      hide Inv, Next, Possible, Prompt;
      if Possible(sys, steps[0]) {
        NextKeepsInv(sys, steps[0]);
        NextIsPrompt(sys, steps[0]);
        RunKeepsInv(Next(sys, steps[0]), steps[1..]);
      } else {
        RunKeepsInv(sys, steps[1..]);
      }
    }
  }

  /** In every run, every call that ended did so with the answer to the execution of its own
      program, and no execution answered two calls. The processor ran exactly the submitted
      programs, none of them empty, in order. */
  lemma EveryAnswerIsRight(sys: System, steps: seq<Step>)
    requires Initial(sys)
    ensures OutcomesRight(Run(sys, steps))
    ensures TicketsDiffer(Run(sys, steps).clients, Run(sys, steps).outcomes)
    ensures InOrder(Run(sys, steps).submissions, Run(sys, steps).executions)
    ensures Prompt(Run(sys, steps).scp)
  {
    RunKeepsInv(sys, steps);
  }

  // ---- every call ends ----

  /** The processor runs a program with the given output, and raises its interrupt. */
  function Served(sys: System, output: string): (r: System)
    requires WellFormed(sys)
    ensures WellFormed(r)
  {
    Run(sys, [Compute(output), Interrupt])
  }

  function ServedAll(sys: System, outputs: seq<string>): (r: System)
    requires WellFormed(sys)
    ensures WellFormed(r)
    decreases |outputs|
  {
    if outputs == [] then sys else ServedAll(Served(sys, outputs[0]), outputs[1..])
  }

  lemma ServedMeans(sys: System, output: string)
    requires WellFormed(sys)
    ensures Served(sys, output) == Next(Computed(sys, output), Interrupt)
  {
    var steps := [Compute(output), Interrupt];
    assert steps[1..] == [Interrupt] && [Interrupt][1..] == [];
    var c := Computed(sys, output);
    hide Next;
    assert Run(c, [Interrupt]) == Run(Next(c, Interrupt), []);
  }

  /** The processor's turn: afterwards there is a response exactly if a request was under way. */
  function Computed(sys: System, output: string): (r: System)
    requires WellFormed(sys)
    ensures WellFormed(r)
  {
    if Possible(sys, Compute(output)) then Next(sys, Compute(output)) else sys
  }

  lemma ComputedResponds(sys: System, output: string)
    requires Inv(sys)
    ensures var c := Computed(sys, output).scp;
            && c.sessions == sys.scp.sessions && c.busy == sys.scp.busy
            && (c.busy <==> c.mailbox.fromScp.Some?)
  {
    hide View, Stored, AllFit, InOrder, TicketsDiffer, OutcomesRight, OneExecuting;
  }

  /** Each service of the processor settles exactly one outstanding request. */
  lemma ServiceLowersOutstanding(sys: System, output: string)
    requires Inv(sys) && Prompt(sys.scp)
    ensures var r := Served(sys, output);
            && Inv(r) && Prompt(r.scp)
            && Outstanding(r.scp) == if Outstanding(sys.scp) > 0 then Outstanding(sys.scp) - 1 else 0
  {
    RunKeepsInv(sys, [Compute(output), Interrupt]);
    ComputedResponds(sys, output);
    assert WellFormed(sys);
    hide Inv, Run;
    ServedMeans(sys, output);
    var c := Computed(sys, output);
    hide Computed;
    ResponseLowersOutstanding(c.scp);
    RescheduleIsScheduled(c.(scp := Collected(c.scp)));
    NonePending(sys.scp.sessions);
  }

  lemma RescheduleIsScheduled(sys: System)
    requires WellFormed(sys)
    ensures Reschedule(sys).scp == Scheduled(sys.scp)
  {
  }

  lemma {:induction false} ServiceSettlesAll(sys: System, outputs: seq<string>)
    requires Inv(sys) && Prompt(sys.scp) && |outputs| >= Outstanding(sys.scp)
    ensures var r := ServedAll(sys, outputs);
            Inv(r) && Prompt(r.scp) && Outstanding(r.scp) == 0
    decreases |outputs|
  {
    if outputs != [] {
      hide Inv, Prompt, Outstanding, Served;
      ServiceLowersOutstanding(sys, outputs[0]);
      ServiceSettlesAll(Served(sys, outputs[0]), outputs[1..]);
    }
  }

  /** Once the processor has served as many programs as there were outstanding requests, every client
      that asked for the execution of a program has a signal to handle, and then finds its answer. */
  lemma EveryCallIsAnswered(sys: System, outputs: seq<string>, i: nat)
    requires Inv(sys) && Prompt(sys.scp) && |outputs| >= Outstanding(sys.scp)
    requires var r := ServedAll(sys, outputs);
             i < |r.clients| && r.clients[i].call.Some? && r.clients[i].call.value.program != []
    ensures var r := ServedAll(sys, outputs);
            && r.scp.sessions[i].result != Unknown && r.clients[i].seen < r.scp.sessions[i].responses
            && var after := Next(r, Wake(i));
               && after.clients[i].call.None? && |after.outcomes| == |r.outcomes| + 1
               && OutcomeIsRight(after.outcomes[|r.outcomes|], after.submissions, after.executions)
               && after.outcomes[|r.outcomes|].owner == r.clients[i].id
               && after.outcomes[|r.outcomes|].program == r.clients[i].call.value.program
  {
    var r := ServedAll(sys, outputs);
    ServiceSettlesAll(sys, outputs);
    NonePending(r.scp.sessions);
    assert Fits(r.scp.sessions[i], r.clients[i], r.scp, r.submissions, r.executions);
    hide View, ServedAll;
    assert r.scp.sessions[i].result != Unknown;
    WakeKeepsInv(r, i);
    assert OutcomesRight(Next(r, Wake(i)));
  }

  /** A wake-up is one iteration of the client's waiting loop: the call ends exactly if the signal
      brings a response, and with the callback that the loop makes for it. */
  lemma WakeIsOneIteration(sys: System, i: nat)
    requires Inv(sys) && Possible(sys, Wake(i))
    ensures var r, result := Next(sys, Wake(i)), sys.scp.sessions[i].result;
            && (r.clients[i].call.None? <==> FirstResponse([ResponseSignal(result)]).Some?)
            && (r.clients[i].call.None? ==>
                  && |r.outcomes| == |sys.outcomes| + 1
                  && result != Unknown && Tells(CallbackFor(result), r.outcomes[|sys.outcomes|].answer))
            && (r.clients[i].call.Some? ==> r.clients[i].call == sys.clients[i].call && r.outcomes == sys.outcomes)
  {
    assert Fits(sys.scp.sessions[i], sys.clients[i], sys.scp, sys.submissions, sys.executions);
    hide View, AllFit, OneExecuting, DeviceFits, InOrder, TicketsDiffer, OutcomesRight;
  }

  /** The callback reports this answer. */
  predicate Tells(callback: Callback, answer: Answer) {
    match callback
    case ResponseFn(len) => answer.Output? && |answer.text| == len
    case ErrorResponseTooLarge => answer == ResponseTooLarge
    case ErrorRequestTooLarge => answer == RequestTooLarge
  }

  // ---- steps take effect ----

  /** A client that calls with an admissible program is in that call, whether or not its request is
      picked up at once; with a larger one its call ends at once. Opening and closing add and remove
      one session, and the processor's run is recorded with the program that it found. */
  lemma StepsTakeEffect(sys: System, step: Step)
    requires Inv(sys) && Possible(sys, step)
    ensures var r := Next(sys, step);
            match step
            case Open(place, ds) =>
              && |r.clients| == |sys.clients| + 1 && r.clients[place] == Client(sys.nextId, 0, None)
              && r.scp.sessions[place].ds == ds
            case Close(i) => |r.clients| == |sys.clients| - 1
            case Execute(i, program) =>
              if |program| > 1000 then
                r.clients == sys.clients && r.scp == sys.scp
                && r.outcomes == sys.outcomes + [Outcome(sys.clients[i].id, program, None, RequestTooLarge)]
              else r.clients[i].call.Some? && r.clients[i].call.value.program == program && r.clients[i].id == sys.clients[i].id
                   && r.outcomes == sys.outcomes
            case Wake(i) => r.clients[i].seen == sys.scp.sessions[i].responses
            case Compute(output) =>
              && |r.executions| == |sys.executions| + 1
              && r.executions[|sys.executions|] == Execution(sys.submissions[|sys.executions|].program, output)
              && r.scp.mailbox == Mailbox(None, sys.scp.mailbox.toScp)
            case Interrupt => r.scp.busy || forall k :: 0 <= k < |r.clients| ==> r.scp.sessions[k].requestLen == 0
  {
    hide View, Stored, AllFit, OneExecuting, TicketsDiffer, OutcomesRight, Delivered;
  }

  /** Submissions are numbered from one on, modulo 2^32. */
  predicate Numbered(sys: System) { sys.scp.lastSubmit == |sys.submissions| % 0x1_0000_0000 }

  lemma NextIsNumbered(sys: System, step: Step)
    requires WellFormed(sys) && Possible(sys, step) && Numbered(sys)
    ensures Numbered(Next(sys, step))
  {
    hide View, Stored, Delivered, Written, AnswerOf, AllDelivered, NextPending;
  }

  lemma {:induction false} SubmissionsAreNumbered(sys: System, steps: seq<Step>)
    requires WellFormed(sys) && Numbered(sys)
    ensures Numbered(Run(sys, steps))
    decreases |steps|
  {
    hide Next, Possible, Numbered;
    if steps != [] {
      if Possible(sys, steps[0]) {
        NextIsNumbered(sys, steps[0]);
        SubmissionsAreNumbered(Next(sys, steps[0]), steps[1..]);
      } else {
        SubmissionsAreNumbered(sys, steps[1..]);
      }
    }
  }
}
