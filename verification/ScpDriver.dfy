/** Any number of sessions that share one mailbox to the system-control processor
    (src/driver/platform/a64/scp.h). */
module ScpDrivers {
  import opened Options
  import opened ScpBuffers

  const DS_SIZE: nat := 4096
  const MAX_REQUEST_LEN: nat := 1000
  const MAX_RESPONSE_LEN: nat := 1000

  /** A buffer this full is considered as overflown. */
  const SATURATED: nat := 1000

  /** `Unknown` stands for no response yet. */
  datatype Result = Unknown | TooLarge | Bytes(len: nat)

  datatype SubmitResult = Submitted(id: nat) | Busy | Capacity

  /** Request and response share the dataspace `ds`. The execution id is present while the request
      is executed. */
  datatype Session = Session(ds: string, requestLen: nat, result: Result, responses: nat, execId: Option<nat>)

  datatype Buffer = Buffer(count: nat, chars: string)

  /** Sequence numbers on their way to the processor and back. */
  datatype Mailbox = Mailbox(toScp: Option<nat>, fromScp: Option<nat>)

  datatype Scp = Scp(sessions: seq<Session>, busy: bool, lastSubmit: nat, lastResponse: nat,
                     mailbox: Mailbox, mib: Buffer, mob: Buffer)

  /** Increment of a 32-bit sequence number. */
  function NextSeq(n: nat): nat { (n + 1) % 0x1_0000_0000 }

  // ---- what the driver's operations compute ----

  /** The first session with a pending request. */
  function NextPending(sessions: seq<Session>): (i: nat)
    ensures i <= |sessions| && (i < |sessions| ==> sessions[i].requestLen > 0)
    ensures forall j :: 0 <= j < i ==> sessions[j].requestLen == 0
  {
    if sessions == [] || sessions[0].requestLen > 0 then 0 else 1 + NextPending(sessions[1..])
  }

  predicate Sized(x: Scp) {
    && |x.mib.chars| == CAPACITY && |x.mob.chars| == CAPACITY
    && forall i :: 0 <= i < |x.sessions| ==>
         |x.sessions[i].ds| == DS_SIZE && x.sessions[i].requestLen <= MAX_REQUEST_LEN
  }

  /** A session once its request was picked up. */
  function PickedUp(s: Session, id: nat): Session { s.(execId := Some(id), requestLen := 0) }

  /** The request of session `i` is handed to the processor. */
  function AfterSubmit(x: Scp, i: nat): (r: Scp)
    requires Sized(x) && i < |x.sessions|
    ensures Sized(r)
  {
    var id := NextSeq(x.lastSubmit);
    var s := x.sessions[i];
    x.(sessions := x.sessions[i := PickedUp(s, id)],
       busy := true, lastSubmit := id,
       mailbox := x.mailbox.(toScp := Some(id)),
       mib := Buffer(s.requestLen, Stored(x.mib.chars, s.ds[..s.requestLen])))
  }

  function Scheduled(x: Scp): (r: Scp)
    requires Sized(x)
    ensures Sized(r)
  {
    if x.busy || NextPending(x.sessions) == |x.sessions| then x
    else AfterSubmit(x, NextPending(x.sessions))
  }

  function ResultOf(mob: Buffer): Result {
    if mob.count >= SATURATED || mob.count > MAX_RESPONSE_LEN then TooLarge else Bytes(mob.count)
  }

  function Response(mob: Buffer): string
    requires |mob.chars| == CAPACITY
  {
    if ResultOf(mob) == TooLarge then [] else View(mob.chars)[..mob.count]
  }

  /** The session whose request is executed under the given number gets the response. */
  function Delivered(s: Session, id: nat, mob: Buffer): Session
    requires |mob.chars| == CAPACITY && |s.ds| == DS_SIZE
  {
    if s.execId != Some(id) then s
    else
      var text := Response(mob);
      s.(ds := text + s.ds[|text|..], result := ResultOf(mob), responses := s.responses + 1, execId := None)
  }

  function AllDelivered(sessions: seq<Session>, id: nat, mob: Buffer): (r: seq<Session>)
    requires |mob.chars| == CAPACITY && forall i :: 0 <= i < |sessions| ==> |sessions[i].ds| == DS_SIZE
    ensures |r| == |sessions| && forall i :: 0 <= i < |sessions| ==> r[i] == Delivered(sessions[i], id, mob)
  {
    if sessions == [] then [] else [Delivered(sessions[0], id, mob)] + AllDelivered(sessions[1..], id, mob)
  }

  /** Interrupt: take a response from the mailbox if there is one. */
  function Collected(x: Scp): (r: Scp)
    requires Sized(x)
    ensures Sized(r)
  {
    match x.mailbox.fromScp
    case None => x
    case Some(id) =>
      x.(sessions := AllDelivered(x.sessions, id, x.mob), busy := false, lastResponse := id,
         mailbox := x.mailbox.(fromScp := None))
  }

  /** `_request` of session `i` with an admissible length. */
  function Requested(x: Scp, i: nat, len: nat): Scp
    requires i < |x.sessions|
  {
    x.(sessions := x.sessions[i := x.sessions[i].(requestLen := len, result := Unknown)])
  }

  /** A session opens at the given place in the registry. */
  function Opened(x: Scp, place: nat, ds: string): Scp
    requires place <= |x.sessions|
  {
    x.(sessions := x.sessions[..place] + [Session(ds, 0, Unknown, 0, None)] + x.sessions[place..])
  }

  function Closed(x: Scp, i: nat): Scp
    requires i < |x.sessions|
  {
    x.(sessions := x.sessions[..i] + x.sessions[i + 1..])
  }

  // ---- scheduling ----

  /** After scheduling, the processor is busy or no session has a pending request. */
  lemma ScheduledIsBusyOrDone(x: Scp)
    requires Sized(x)
    ensures Scheduled(x).busy || forall i :: 0 <= i < |x.sessions| ==> Scheduled(x).sessions[i].requestLen == 0
  {
  }

  function Pending(sessions: seq<Session>): nat {
    if sessions == [] then 0 else (if sessions[0].requestLen > 0 then 1 else 0) + Pending(sessions[1..])
  }

  /** Requests not yet responded to. */
  function Outstanding(x: Scp): nat { Pending(x.sessions) + if x.busy then 1 else 0 }

  lemma {:induction false} PendingAfterUpdate(sessions: seq<Session>, i: nat, s: Session)
    requires i < |sessions|
    ensures Pending(sessions[i := s]) + (if sessions[i].requestLen > 0 then 1 else 0)
         == Pending(sessions) + (if s.requestLen > 0 then 1 else 0)
  {
    if i > 0 {
      assert sessions[i := s][1..] == sessions[1..][i - 1 := s];
      PendingAfterUpdate(sessions[1..], i - 1, s);
    } else {
      assert sessions[i := s][1..] == sessions[1..];
    }
  }

  lemma {:induction false} SamePending(a: seq<Session>, b: seq<Session>)
    requires |a| == |b| && forall i :: 0 <= i < |a| ==> a[i].requestLen == b[i].requestLen
    ensures Pending(a) == Pending(b)
  {
    if a != [] { SamePending(a[1..], b[1..]); }
  }

  lemma {:induction false} NonePending(sessions: seq<Session>)
    ensures Pending(sessions) == 0 <==> forall i :: 0 <= i < |sessions| ==> sessions[i].requestLen == 0
  {
    if sessions != [] {
      NonePending(sessions[1..]);
      assert forall i :: 0 < i < |sessions| ==> sessions[i] == sessions[1..][i - 1];
      if forall i :: 0 <= i < |sessions| ==> sessions[i].requestLen == 0 {
        assert forall i :: 0 <= i < |sessions[1..]| ==> sessions[1..][i] == sessions[i + 1];
      }
    }
  }

  /** Scheduling loses no request. */
  lemma SchedulingKeepsOutstanding(x: Scp)
    requires Sized(x)
    ensures Outstanding(Scheduled(x)) == Outstanding(x)
  {
    var i := NextPending(x.sessions);
    if !x.busy && i < |x.sessions| {
      PendingAfterUpdate(x.sessions, i, PickedUp(x.sessions[i], NextSeq(x.lastSubmit)));
    }
  }

  /** An interrupt with a response lowers the number of outstanding requests by one, a spurious
      interrupt leaves it alone. */
  lemma ResponseLowersOutstanding(x: Scp)
    requires Sized(x) && (x.mailbox.fromScp.Some? ==> x.busy)
    ensures Outstanding(Scheduled(Collected(x)))
         == if x.mailbox.fromScp.Some? then Outstanding(x) - 1 else Outstanding(x)
  {
    SchedulingKeepsOutstanding(Collected(x));
    SamePending(x.sessions, Collected(x).sessions);
  }

  /** An interrupt with a response leaves the mailbox empty, notes the response's number and makes the
      processor available; a spurious one does nothing. */
  lemma ResponseIsTaken(x: Scp)
    requires Sized(x)
    ensures var r := Collected(x);
            if x.mailbox.fromScp.None? then r == x
            else
              && r.mailbox == Mailbox(x.mailbox.toScp, None) && x.mailbox.fromScp == Some(r.lastResponse) && !r.busy
              && r.lastSubmit == x.lastSubmit && r.mib == x.mib && r.mob == x.mob
  {
  }

  // ---- the classes ----

  class Mbox {
    var toScp: Option<nat>
    var fromScp: Option<nat>

    constructor ()
      ensures toScp.None? && fromScp.None?
    {
      toScp, fromScp := None, None;
    }

    method ValueToScp(value: nat)
      modifies this
      ensures toScp == Some(value) && fromScp == old(fromScp)
    {
      toScp := Some(value);
    }

    method ValueFromScp() returns (value: nat)
      requires fromScp.Some?
      modifies this
      ensures old(fromScp) == Some(value) && fromScp == None && toScp == old(toScp)
    {
      value := fromScp.value;
      fromScp := None;
    }
  }

  class SessionComponent {
    const ds: array<char>
    var requestLen: nat
    var result: Result
    var responses: nat
    var execId: Option<nat>

    ghost predicate Valid()
      reads this
    {
      ds.Length == DS_SIZE && requestLen <= MAX_REQUEST_LEN
    }

    function Value(): Session
      reads this, ds
    {
      Session(ds[..], requestLen, result, responses, execId)
    }

    constructor ()
      ensures Valid() && fresh(ds)
      ensures requestLen == 0 && result == Unknown && responses == 0 && execId == None
    {
      ds := new char[DS_SIZE](_ => '\0');
      requestLen, result, responses, execId := 0, Unknown, 0, None;
    }

    predicate Matches(id: nat)
      reads this
    {
      execId == Some(id)
    }
  }

  class ScpDriver {
    const mib: SharedBuffer
    const mob: SharedBuffer
    const mbox: Mbox
    var sessions: seq<SessionComponent>
    var busy: bool
    var lastSubmit: nat
    var lastResponse: nat

    ghost predicate Valid()
      reads this, sessions
    {
      && mib.Valid() && mob.Valid() && mib != mob && mib.chars != mob.chars
      && (forall i :: 0 <= i < |sessions| ==>
            sessions[i].Valid() && sessions[i].ds != mib.chars && sessions[i].ds != mob.chars)
      && (forall i, j :: 0 <= i < j < |sessions| ==>
            sessions[i] != sessions[j] && sessions[i].ds != sessions[j].ds)
    }

    /** The session objects and their dataspaces. */
    ghost function Objects(): set<object>
      reads this`sessions
    {
      (set s: SessionComponent | s in sessions) + (set s: SessionComponent | s in sessions :: s.ds)
    }

    ghost function Values(): (r: seq<Session>)
      reads this`sessions, Objects()
      ensures |r| == |sessions| && forall i :: 0 <= i < |r| ==> r[i] == sessions[i].Value()
    {
      var ss, objects := sessions, Objects();
      seq(|ss|, i requires 0 <= i < |ss| && {ss[i], ss[i].ds} <= objects reads objects => ss[i].Value())
    }

    ghost function Value(): Scp
      reads this, mib, mib.chars, mob, mob.chars, mbox, Objects()
    {
      Scp(Values(), busy, lastSubmit, lastResponse, Mailbox(mbox.toScp, mbox.fromScp),
          Buffer(mib.count, mib.chars[..]), Buffer(mob.count, mob.chars[..]))
    }

    constructor ()
      ensures Valid() && sessions == [] && !busy
      ensures fresh(mib) && fresh(mib.chars) && fresh(mob) && fresh(mob.chars) && fresh(mbox)
    {
      mib := new SharedBuffer();
      mob := new SharedBuffer();
      mbox := new Mbox();
      sessions, busy, lastSubmit, lastResponse := [], false, 0, 0;
    }

    method SubmitToScp(str: array<char>, len: nat) returns (r: SubmitResult)
      requires Valid() && len <= str.Length && str != mib.chars
      modifies this`busy, this`lastSubmit, mib, mib.chars, mbox
      ensures r == if old(busy) then Busy else if len > CAPACITY then Capacity
                   else Submitted(NextSeq(old(lastSubmit)))
      ensures if r.Submitted? then
                && busy && lastSubmit == r.id
                && mbox.toScp == Some(r.id) && mbox.fromScp == old(mbox.fromScp)
                && mib.count == len && mib.chars[..] == Stored(old(mib.chars[..]), old(str[..len]))
              else
                && busy == old(busy) && lastSubmit == old(lastSubmit)
                && mbox.toScp == old(mbox.toScp) && mbox.fromScp == old(mbox.fromScp)
                && mib.count == old(mib.count) && mib.chars[..] == old(mib.chars[..])
    {
      if busy {
        return Busy;
      }
      if len > CAPACITY {
        return Capacity;
      }
      mib.Put(str, len);
      lastSubmit := NextSeq(lastSubmit);
      mbox.ValueToScp(lastSubmit);
      busy := true;
      return Submitted(lastSubmit);
    }

    method RetrieveFromScp(dst: array<char>, dstSize: nat) returns (r: Option<nat>)
      requires Valid() && dstSize <= dst.Length && dst != mob.chars
      modifies dst
      ensures r == if mob.count >= SATURATED || mob.count > dstSize then None else Some(mob.count)
      ensures r.None? ==> dst[..] == old(dst[..])
      ensures r.Some? ==> dst[..] == View(mob.chars[..])[..mob.count] + old(dst[mob.count..])
    {
      var len := mob.count;
      var mobSaturated := len >= SATURATED;
      if mobSaturated || len > dstSize {
        return None;
      }
      mob.Get(dst, len);
      return Some(len);
    }

    /** `with_pending_request` for one session, while the processor is idle. The submission always
        succeeds. */
    method TrySubmit(i: nat)
      requires Valid() && !busy && i < |sessions|
      modifies this`busy, this`lastSubmit, mib, mib.chars, mbox, sessions[i]
      ensures Valid()
      ensures Value() == if old(sessions[i].requestLen) == 0 then old(Value()) else AfterSubmit(old(Value()), i)
    {
      hide Stored;
      var session := sessions[i];
      if session.requestLen == 0 {
        return;
      }
      var r := SubmitToScp(session.ds, session.requestLen);
      session.execId := if r.Submitted? then Some(r.id) else None;
      session.requestLen := 0;
    }

    method Schedule()
      requires Valid()
      modifies this`busy, this`lastSubmit, mib, mib.chars, mbox, sessions
      ensures Valid()
      ensures Value() == Scheduled(old(Value()))
    {
      ghost var x := Value();
      for i := 0 to |sessions|
        invariant Valid()
        invariant || (Value() == x && (busy || NextPending(x.sessions) >= i))
                  || (busy && Value() == Scheduled(x))
      {
        if !busy {
          NextPendingStep(x.sessions, i);
          TrySubmit(i);
        }
      }
    }

    method DeliverResponse(i: nat, id: nat)
      requires Valid() && i < |sessions|
      modifies sessions[i], sessions[i].ds
      ensures Valid()
      ensures sessions[i].Value() == Delivered(old(sessions[i].Value()), id, Buffer(mob.count, mob.chars[..]))
    {
      var session := sessions[i];
      if session.Matches(id) {
        var r := RetrieveFromScp(session.ds, MAX_RESPONSE_LEN);
        session.result := if r.None? then TooLarge else Bytes(r.value);
        session.responses := session.responses + 1;
        session.execId := None;
      }
    }

    /** Hand the response to the session whose request it belongs to, if that session still
        exists. */
    method DeliverToAll(id: nat)
      requires Valid()
      modifies Objects()
      ensures Valid()
      ensures Value() == old(Value()).(sessions := AllDelivered(old(Values()), id, Buffer(mob.count, mob.chars[..])))
    {
      hide Delivered;
      ghost var was := Values();
      ghost var response := Buffer(mob.count, mob.chars[..]);
      for i := 0 to |sessions|
        invariant Valid()
        invariant response == Buffer(mob.count, mob.chars[..])
        invariant forall j :: 0 <= j < |sessions| ==>
                    sessions[j].Value() == if j < i then Delivered(was[j], id, response) else was[j]
      {
        DeliverResponse(i, id);
      }
    }

    method TakeResponse()
      requires Valid() && mbox.fromScp.Some?
      modifies this`lastResponse, mbox
      ensures Valid() && old(mbox.fromScp) == Some(lastResponse)
      ensures Value() == old(Value()).(lastResponse := lastResponse, mailbox := old(Value()).mailbox.(fromScp := None))
    {
      lastResponse := mbox.ValueFromScp();
    }

    method CollectResponse()
      requires Valid()
      modifies this`busy, this`lastResponse, mbox, Objects()
      ensures Valid()
      ensures Value() == Collected(old(Value()))
    {
      hide AllDelivered, Delivered, View, SessionComponent.Valid, Values;
      if mbox.fromScp.Some? {
        TakeResponse();
        DeliverToAll(lastResponse);
        busy := false;
      }
    }

    method HandleIrq()
      requires Valid()
      modifies this`busy, this`lastSubmit, this`lastResponse, mib, mib.chars, mbox, Objects()
      ensures Valid()
      ensures Value() == Scheduled(Collected(old(Value())))
    {
      CollectResponse();
      Schedule();
    }

    /** `_request` of session `i`. */
    method Request(i: nat, len: nat) returns (ok: bool)
      requires Valid() && i < |sessions|
      modifies this`busy, this`lastSubmit, mib, mib.chars, mbox, sessions
      ensures Valid()
      ensures ok <==> len <= MAX_REQUEST_LEN
      ensures Value() == if ok then Scheduled(Requested(old(Value()), i, len)) else old(Value())
    {
      if len > MAX_REQUEST_LEN {
        return false;
      }
      ghost var x := Value();
      sessions[i].requestLen := len;
      sessions[i].result := Unknown;
      assert Values() == Requested(x, i, len).sessions;
      Schedule();
      return true;
    }

    /** Open a session. Its place in the registry is arbitrary. */
    method CreateSession(place: nat) returns (session: SessionComponent)
      requires Valid() && place <= |sessions|
      modifies this`sessions
      ensures Valid() && fresh(session) && fresh(session.ds)
      ensures sessions == old(sessions)[..place] + [session] + old(sessions)[place..]
      ensures Value() == Opened(old(Value()), place, session.ds[..])
    {
      session := new SessionComponent();
      sessions := sessions[..place] + [session] + sessions[place..];
    }

    method DestroySession(i: nat)
      requires Valid() && i < |sessions|
      modifies this`sessions
      ensures Valid()
      ensures sessions == old(sessions)[..i] + old(sessions)[i + 1..]
      ensures Value() == Closed(old(Value()), i)
    {
      sessions := sessions[..i] + sessions[i + 1..];
    }
  }

  lemma NextPendingStep(sessions: seq<Session>, i: nat)
    requires i < |sessions| && NextPending(sessions) >= i
    ensures sessions[i].requestLen > 0 <==> NextPending(sessions) == i
  {
  }
}
