/** The GPU session's single request slot, served by a worker that may block in the middle of a
    request, and the bookkeeping of buffer objects (src/driver/gpu/lima/main.cc). */
module Gpu {
  import opened Options

  datatype Operation = Alloc | Free | Exec | Wait | SyncobjWait | Other

  /** `subject` is the buffer id or the synchronisation object that the operation is about. */
  datatype Request = Request(operation: Operation, subject: nat, tag: nat, success: bool)

  /** How the kernel treats the next request: whether a wait blocks, whether an operation succeeds,
      which handle a new buffer gets, whether the new buffer is as asked for, and whether closing a
      handle succeeds. */
  datatype Kernel = Kernel(blocks: bool, succeeds: bool, handle: nat, fits: bool, closes: bool)

  /** Buffers created by the session: their handles by id, and the handles that are open in the
      kernel. `vrams` and `locals` are the ids with an exported object and a local entry. */
  datatype Buffers = Buffers(handles: map<nat, nat>, open: set<nat>, vrams: set<nat>, locals: set<nat>)

  datatype State = State(pending: Option<Request>, completed: Option<Request>, buffers: Buffers,
                         tags: nat, syncobjWait: bool)

  // ---- the worker ----

  predicate Waits(r: Request, b: Buffers) {
    r.operation == SyncobjWait || (r.operation == Wait && r.subject in b.handles)
  }

  function Closed(open: set<nat>, handle: nat, closes: bool): set<nat> {
    if closes then open - {handle} else open
  }

  /** Effect of a request on the buffers. */
  function BuffersAfter(r: Request, b: Buffers, k: Kernel): Buffers {
    if r.operation == Alloc && k.succeeds then
      if k.fits then b.(handles := b.handles[r.subject := k.handle], open := b.open + {k.handle})
      else b.(open := Closed(b.open + {k.handle}, k.handle, k.closes))
    else if r.operation == Free && r.subject in b.handles then
      b.(handles := b.handles - {r.subject}, open := Closed(b.open, b.handles[r.subject], k.closes))
    else b
  }

  predicate Succeeds(r: Request, b: Buffers, k: Kernel) {
    match r.operation
    case Alloc => k.succeeds && k.fits
    case Free => r.subject in b.handles
    case Wait => r.subject in b.handles && k.succeeds
    case _ => k.succeeds
  }

  /** The worker completes the pending request. */
  function Completed(s: State, k: Kernel): State
    requires s.pending.Some?
  {
    var r := s.pending.value;
    s.(pending := None, completed := Some(r.(success := Succeeds(r, s.buffers, k))),
       buffers := BuffersAfter(r, s.buffers, k))
  }

  /** The worker picks up the pending request, and runs until it is done or blocks in a wait. */
  function Worked(s: State, k: Kernel): State
    requires s.pending.Some?
  {
    var cleared := s.(completed := None);
    if Waits(s.pending.value, s.buffers) && k.blocks then cleared else Completed(cleared, k)
  }

  // ---- scheduling ----

  predicate Managed(r: Request, b: Buffers) {
    r.operation == Free || r.operation == Exec ==> r.subject in b.handles
  }

  predicate Accepts(s: State, r: Request) { s.pending.None? && Managed(r, s.buffers) }

  function Scheduled(s: State, r: Request, k: Kernel): State {
    if Accepts(s, r) then Worked(s.(pending := Some(r)), k) else s
  }

  /** What the success function is called with; the failure function is called otherwise. */
  function Result(s: State, r: Request, k: Kernel): Option<Request> {
    var after := Scheduled(s, r, k);
    if Accepts(s, r) && after.completed.Some? && after.completed.value.success then after.completed else None
  }

  function Create(s: State, operation: Operation, subject: nat): (State, Request) {
    (s.(tags := s.tags + 1), Request(operation, subject, s.tags + 1, false))
  }

  // ---- session calls ----

  /** `_unmap_gpu` of a buffer that the session exported itself. The failure of the request is
      ignored. */
  function Unmapped(s: State, id: nat, k: Kernel): State {
    if id !in s.buffers.locals || id !in s.buffers.vrams then s
    else
      var c := Create(s, Free, id);
      var b := s.buffers;
      Scheduled(c.0.(buffers := b.(vrams := b.vrams - {id}, locals := b.locals - {id})), c.1, k)
  }

  /** Creating the exported object and the local entry may fail, each for itself. */
  datatype Memory = Memory(vram: bool, local: bool)

  predicate Registers(b: Buffers, id: nat, m: Memory) { m.vram && m.local && id !in b.locals }

  /** `map_gpu`, with the kernel's treatment of the allocation and of a rollback. */
  function Mapped(s: State, id: nat, m: Memory, k: Kernel, rollback: Kernel): State {
    if id in s.buffers.handles then s
    else
      var c := Create(s, Alloc, id);
      var after := Scheduled(c.0, c.1, k);
      if Result(c.0, c.1, k) == None then after
      else
        var b := after.buffers;
        if Registers(b, id, m) then after.(buffers := b.(vrams := b.vrams + {id}, locals := b.locals + {id}))
        else
          var f := Create(after, Free, id);
          Scheduled(f.0, f.1, rollback)
  }

  /** `complete` for a synchronisation object of the session. */
  function Waited(s: State, seqno: nat, k: Kernel): State {
    if s.syncobjWait && s.pending.Some? && s.pending.value.operation == SyncobjWait then s
    else if s.syncobjWait && s.completed.Some? && s.completed.value.operation == SyncobjWait then
      s.(syncobjWait := false)
    else
      var c := Create(s, SyncobjWait, seqno);
      var asked := c.0.(syncobjWait := false);
      Scheduled(asked, c.1, k).(syncobjWait := Result(asked, c.1, k) == None)
  }

  function WaitAnswer(s: State, seqno: nat, k: Kernel): bool {
    if s.syncobjWait && s.pending.Some? && s.pending.value.operation == SyncobjWait then false
    else if s.syncobjWait && s.completed.Some? && s.completed.value.operation == SyncobjWait then
      s.completed.value.success
    else
      var c := Create(s, SyncobjWait, seqno);
      Result(c.0.(syncobjWait := false), c.1, k) != None
  }

  // ---- results ----

  /** A success function only ever sees the result of its own request. */
  lemma OwnResult(s: State, r: Request, k: Kernel)
    ensures Result(s, r, k).Some? ==>
              Result(s, r, k).value == r.(success := true) && Accepts(s, r)
  {
  }

  predicate IsWait(r: Request) { r.operation == Wait || r.operation == SyncobjWait }

  /** The pending slot is only held by a worker that is blocked in a wait, and then there is no
      result. */
  predicate SlotsFit(s: State) {
    s.pending.Some? ==> s.completed.None? && IsWait(s.pending.value) && !s.pending.value.success
  }

  /** No result or pending request carries a tag that is yet to be given out. */
  predicate TagsFit(s: State) {
    (s.pending.Some? ==> s.pending.value.tag <= s.tags) && (s.completed.Some? ==> s.completed.value.tag <= s.tags)
  }

  /** While the worker is blocked, every other request is refused and changes nothing. */
  lemma BlockedRefuses(s: State, r: Request, k: Kernel)
    requires s.pending.Some?
    ensures Scheduled(s, r, k) == s && Result(s, r, k).None?
  {
  }

  // ---- runs ----

  /** Calls of the client, and the kernel waking up the blocked worker. */
  datatype Step = Map(id: nat, m: Memory, k: Kernel, rollback: Kernel)
                | Unmap(id: nat, k: Kernel)
                | Complete(seqno: nat, k: Kernel)
                | Perform(operation: Operation, subject: nat, k: Kernel)
                | WakeUp(k: Kernel)

  function Next(s: State, step: Step): State {
    match step
    case Map(id, m, k, rollback) => Mapped(s, id, m, k, rollback)
    case Unmap(id, k) => Unmapped(s, id, k)
    case Complete(seqno, k) => Waited(s, seqno, k)
    case Perform(operation, subject, k) =>
      if operation == Alloc || operation == Free then s
      else
        var c := Create(s, operation, subject);
        Scheduled(c.0, c.1, k)
    case WakeUp(k) => if s.pending.Some? then Completed(s, k) else s
  }

  function Run(s: State, steps: seq<Step>): State
    decreases |steps|
  {
    if steps == [] then s else Run(Next(s, steps[0]), steps[1..])
  }

  const INITIAL := State(None, None, Buffers(map[], {}, {}, {}), 0, false)

  lemma ScheduledKeepsSlots(s: State, r: Request, k: Kernel)
    requires SlotsFit(s) && TagsFit(s) && r.tag <= s.tags && !r.success
    ensures SlotsFit(Scheduled(s, r, k)) && TagsFit(Scheduled(s, r, k)) && Scheduled(s, r, k).tags == s.tags
  {
  }

  lemma NextKeepsSlots(s: State, step: Step)
    requires SlotsFit(s) && TagsFit(s)
    ensures SlotsFit(Next(s, step)) && TagsFit(Next(s, step)) && s.tags <= Next(s, step).tags
  {
    hide Scheduled, Result;
    match step
    case Map(id, m, k, rollback) =>
      var c := Create(s, Alloc, id);
      ScheduledKeepsSlots(c.0, c.1, k);
      var f := Create(Scheduled(c.0, c.1, k), Free, id);
      ScheduledKeepsSlots(f.0, f.1, rollback);
    case Unmap(id, k) =>
      var c, b := Create(s, Free, id), s.buffers;
      ScheduledKeepsSlots(c.0.(buffers := b.(vrams := b.vrams - {id}, locals := b.locals - {id})), c.1, k);
    case Complete(seqno, k) =>
      var c := Create(s, SyncobjWait, seqno);
      ScheduledKeepsSlots(c.0.(syncobjWait := false), c.1, k);
    case Perform(operation, subject, k) =>
      var c := Create(s, operation, subject);
      ScheduledKeepsSlots(c.0, c.1, k);
    case WakeUp(k) =>
  }

  // ---- handles ----

  /** The handles open in the kernel are exactly the registered ones, each registered once. */
  predicate HandlesMatch(b: Buffers) {
    && b.open == b.handles.Values
    && forall i, j :: i in b.handles && j in b.handles && b.handles[i] == b.handles[j] ==> i == j
  }

  /** The kernel gives out handles that are not in use, and closes handles when asked to. */
  predicate Honest(b: Buffers, k: Kernel) { k.closes && k.handle !in b.open }

  lemma BuffersStayMatched(r: Request, b: Buffers, k: Kernel)
    requires HandlesMatch(b) && Honest(b, k) && (r.operation == Alloc ==> r.subject !in b.handles)
    ensures HandlesMatch(BuffersAfter(r, b, k))
  {
    var after := BuffersAfter(r, b, k);
    if r.operation == Alloc && k.succeeds {
      if k.fits {
        assert after.handles.Values == b.handles.Values + {k.handle} by {
          assert forall i :: i in b.handles ==> after.handles[i] == b.handles[i];
          assert after.handles[r.subject] == k.handle;
        }
      } else {
        assert b.open + {k.handle} - {k.handle} == b.open;
      }
    } else if r.operation == Free && r.subject in b.handles {
      var h := b.handles[r.subject];
      assert after.handles.Values == b.handles.Values - {h} by {
        forall v | v in b.handles.Values - {h} ensures v in after.handles.Values {
          var i :| i in b.handles && b.handles[i] == v;
          assert i in after.handles && after.handles[i] == v;
        }
      }
    }
  }

  /** A kernel that refuses to close a handle leaves it open without anybody knowing it. */
  lemma RefusedCloseLeaks(s: State, id: nat, tag: nat, k: Kernel)
    requires s.pending.None? && HandlesMatch(s.buffers) && id in s.buffers.handles
    ensures HandlesMatch(Scheduled(s, Request(Free, id, tag, false), k).buffers) <==> k.closes
  {
    var r := Request(Free, id, tag, false);
    var after := BuffersAfter(r, s.buffers, k);
    if k.closes {
      BuffersStayMatched(r, s.buffers, Kernel(k.blocks, k.succeeds, FreshHandle(s.buffers.open), k.fits, true));
    } else {
      assert s.buffers.handles[id] in after.open && s.buffers.handles[id] !in after.handles.Values;
    }
  }

  /** Some handle that is not open. */
  ghost function FreshHandle(open: set<nat>): (h: nat)
    ensures h !in open
  {
    FreshExists(open);
    var h: nat :| h !in open;
    h
  }

  lemma {:induction false} FreshExists(open: set<nat>)
    ensures exists h: nat :: h !in open && forall x :: x in open ==> x < h
  {
    if open == {} {
      assert 0 !in open && forall x :: x in open ==> x < 0;
    } else {
      var x :| x in open;
      FreshExists(open - {x});
      var h: nat :| h !in open - {x} && forall y :: y in open - {x} ==> y < h;
      var g := if h <= x then x + 1 else h;
      assert g !in open && forall y :: y in open ==> y < g by {
        assert forall y :: y in open ==> y == x || y in open - {x};
      }
    }
  }

  /** What the kernel does in this step is honest. */
  predicate HonestStep(s: State, step: Step) {
    match step
    case Map(id, m, k, rollback) =>
      Honest(s.buffers, k) && rollback.closes && rollback.handle !in s.buffers.open + {k.handle}
    case Unmap(id, k) => Honest(s.buffers, k)
    case Complete(seqno, k) => Honest(s.buffers, k)
    case Perform(operation, subject, k) => Honest(s.buffers, k)
    case WakeUp(k) => Honest(s.buffers, k)
  }

  /** Every kernel step of the run is honest. */
  predicate HonestRun(s: State, steps: seq<Step>)
    decreases |steps|
  {
    steps != [] ==> HonestStep(s, steps[0]) && HonestRun(Next(s, steps[0]), steps[1..])
  }

  lemma ScheduledKeepsHandles(s: State, r: Request, k: Kernel)
    requires HandlesMatch(s.buffers) && Honest(s.buffers, k) && (r.operation == Alloc ==> r.subject !in s.buffers.handles)
    ensures HandlesMatch(Scheduled(s, r, k).buffers)
  {
    BuffersStayMatched(r, s.buffers, k);
  }

  lemma SameHandles(b: Buffers, c: Buffers)
    requires HandlesMatch(b) && c.handles == b.handles && c.open == b.open
    ensures HandlesMatch(c)
  {
  }

  lemma NextKeepsHandles(s: State, step: Step)
    requires SlotsFit(s) && HandlesMatch(s.buffers) && HonestStep(s, step)
    ensures HandlesMatch(Next(s, step).buffers)
  {
    match step
    case Map(id, m, k, rollback) =>
      if id !in s.buffers.handles {
        MapKeepsHandles(s, id, m, k, rollback);
      }
    case Unmap(id, k) =>
      var c, b := Create(s, Free, id), s.buffers;
      var unlisted := b.(vrams := b.vrams - {id}, locals := b.locals - {id});
      SameHandles(b, unlisted);
      ScheduledKeepsHandles(c.0.(buffers := unlisted), c.1, k);
    case Complete(seqno, k) =>
      var c := Create(s, SyncobjWait, seqno);
      ScheduledKeepsHandles(c.0.(syncobjWait := false), c.1, k);
    case Perform(operation, subject, k) =>
      var c := Create(s, operation, subject);
      if operation != Alloc {
        ScheduledKeepsHandles(c.0, c.1, k);
      }
    case WakeUp(k) =>
      if s.pending.Some? {
        BuffersStayMatched(s.pending.value, s.buffers, k);
      }
  }

  lemma MapKeepsHandles(s: State, id: nat, m: Memory, k: Kernel, rollback: Kernel)
    requires HandlesMatch(s.buffers) && HonestStep(s, Map(id, m, k, rollback)) && id !in s.buffers.handles
    ensures HandlesMatch(Mapped(s, id, m, k, rollback).buffers)
  {
    var c := Create(s, Alloc, id);
    ScheduledKeepsHandles(c.0, c.1, k);
    var after := Scheduled(c.0, c.1, k);
    var f := Create(after, Free, id);
    ScheduledKeepsHandles(f.0, f.1, rollback);
  }

  /** In every run with an honest kernel: the slots and tags fit, and the open handles are exactly
      the registered ones. */
  lemma {:induction false} RunsKeepHandles(s: State, steps: seq<Step>)
    requires SlotsFit(s) && TagsFit(s) && HandlesMatch(s.buffers) && HonestRun(s, steps)
    ensures var r := Run(s, steps);
            SlotsFit(r) && TagsFit(r) && HandlesMatch(r.buffers)
    decreases |steps|
  {
    hide SlotsFit, TagsFit, HandlesMatch, Next, HonestStep;
    if steps != [] {
      NextKeepsSlots(s, steps[0]);
      NextKeepsHandles(s, steps[0]);
      RunsKeepHandles(Next(s, steps[0]), steps[1..]);
    }
  }

  /** `map_gpu` adds buffer, exported object and local entry together, or none of them. It adds them
      exactly if the worker is free, the id is not in use, and kernel and memory play along. */
  lemma MapIsAllOrNone(s: State, id: nat, m: Memory, k: Kernel, rollback: Kernel)
    requires HandlesMatch(s.buffers) && HonestStep(s, Map(id, m, k, rollback))
    ensures var b, after := s.buffers, Mapped(s, id, m, k, rollback).buffers;
            if MapSucceeds(s, id, m, k)
            then after == Buffers(b.handles[id := k.handle], b.open + {k.handle}, b.vrams + {id}, b.locals + {id})
            else after == b
  {
    var b := s.buffers;
    if id !in b.handles {
      assert b.handles[id := k.handle] - {id} == b.handles;
    }
    assert b.open + {k.handle} - {k.handle} == b.open;
  }

  predicate MapSucceeds(s: State, id: nat, m: Memory, k: Kernel) {
    && s.pending.None? && id !in s.buffers.handles && k.succeeds && k.fits
    && m.vram && m.local && id !in s.buffers.locals
  }

  // ---- exactly when a call succeeds ----

  /** For each kind of request, exactly when its success function is called. */
  lemma ResultMeans(s: State, r: Request, k: Kernel)
    requires !r.success
    ensures Result(s, r, k).Some? <==>
              && s.pending.None?
              && match r.operation
                 case Alloc => k.succeeds && k.fits
                 case Free => r.subject in s.buffers.handles
                 case Exec => r.subject in s.buffers.handles && k.succeeds
                 case Wait => r.subject in s.buffers.handles && k.succeeds && !k.blocks
                 case SyncobjWait => k.succeeds && !k.blocks
                 case Other => k.succeeds
  {
  }

  /** What a request leaves behind. Only an allocation or a free changes the buffers, and then only
      the one that it is about; a blocked wait keeps the slot, everything else frees it. */
  lemma ScheduledMeans(s: State, r: Request, k: Kernel)
    requires s.pending.None? && !r.success && k.closes
    ensures var b, after := s.buffers, Scheduled(s, r, k);
            && (r.operation == Free && r.subject in b.handles ==>
                  after.buffers == b.(handles := b.handles - {r.subject}, open := b.open - {b.handles[r.subject]}))
            && (r.operation == Alloc && k.succeeds && k.fits ==>
                  after.buffers == b.(handles := b.handles[r.subject := k.handle], open := b.open + {k.handle}))
            && (r.operation != Alloc && r.operation != Free ==> after.buffers == b)
            && after.pending == (if IsWait(r) && k.blocks && (r.operation == Wait ==> r.subject in b.handles)
                                 then Some(r) else None)
            && after.tags == s.tags && after.syncobjWait == s.syncobjWait
  {
  }

  /** A blocked wait that the kernel wakes up ends with the kernel's answer. */
  lemma WokenWaitEnds(s: State, k: Kernel)
    requires SlotsFit(s) && s.pending.Some? && (s.pending.value.operation == Wait ==> s.pending.value.subject in s.buffers.handles)
    ensures var after := Next(s, WakeUp(k));
            && after.pending.None? && after.completed == Some(s.pending.value.(success := k.succeeds))
            && after.buffers == s.buffers
  {
  }

  /** Any request other than for a buffer is scheduled under a new tag; unless it blocks or is refused, the
      completed slot tells how it ended. */
  lemma PerformMeans(s: State, operation: Operation, subject: nat, k: Kernel)
    requires operation != Alloc && operation != Free
    ensures var after := Next(s, Perform(operation, subject, k));
            var r := Request(operation, subject, s.tags + 1, false);
            var known := subject in s.buffers.handles;
            && after.tags == s.tags + 1 && after.buffers == s.buffers && after.syncobjWait == s.syncobjWait
            && (s.pending.Some? || (operation == Exec && !known) ==>
                  after.pending == s.pending && after.completed == s.completed)
            && (s.pending.None? && (operation == Exec ==> known) ==>
                  if IsWait(r) && k.blocks && (operation == Wait ==> known)
                  then after.pending == Some(r) && after.completed.None?
                  else after.pending.None?
                       && after.completed == Some(r.(success := k.succeeds && (operation == Wait ==> known))))
  {
  }

  /** Unmapping an exported buffer forgets the exported object and the local entry, and with a free
      worker also the buffer, and no other; any other id is left alone. */
  lemma UnmapMeans(s: State, id: nat, k: Kernel)
    requires k.closes
    ensures var b, after := s.buffers, Unmapped(s, id, k).buffers;
            if id !in b.locals || id !in b.vrams then Unmapped(s, id, k) == s
            else
              && after.locals == b.locals - {id} && after.vrams == b.vrams - {id}
              && (if s.pending.None? && id in b.handles
                  then after.handles == b.handles - {id} && after.open == b.open - {b.handles[id]}
                  else after.handles == b.handles && after.open == b.open)
  {
  }

  /** No earlier request carries the tag of a new one. */
  lemma NewTagIsFresh(s: State, operation: Operation, subject: nat)
    requires TagsFit(s)
    ensures var (after, r) := Create(s, operation, subject);
            && r.operation == operation && r.subject == subject && !r.success && TagsFit(after) && r.tag <= after.tags
            && (s.pending.Some? ==> s.pending.value.tag != r.tag) && (s.completed.Some? ==> s.completed.value.tag != r.tag)
  {
  }

  predicate WaitIs(r: Option<Request>) { r.Some? && r.value.operation == SyncobjWait }

  /** Exactly when `complete` reports the object as completed, and whether it remembers a wait: never
      while an interrupted wait is blocked, as the wait ended if it has ended, and otherwise if the
      worker is free and the kernel says so at once. */
  lemma WaitAnswerMeans(s: State, seqno: nat, k: Kernel)
    ensures var done, after := WaitAnswer(s, seqno, k), Waited(s, seqno, k);
            if s.syncobjWait && WaitIs(s.pending) then !done && after == s
            else if s.syncobjWait && WaitIs(s.completed) then
              done == s.completed.value.success && after == s.(syncobjWait := false)
            else
              && (done <==> s.pending.None? && !k.blocks && k.succeeds)
              && after.syncobjWait == !done && after.buffers == s.buffers
              && (if s.pending.None? && k.blocks then WaitIs(after.pending) && after.pending.value.subject == seqno
                  else after.pending == s.pending)
  {
  }

  // ---- two gaps ----

  /** Unmapping a buffer forgets the exported object and the local entry at once, but the buffer
      itself stays exactly if the worker is blocked in a wait at that moment; from then on, its id
      cannot be mapped again. */
  lemma UnmapWhileBlockedLeaks(s: State, id: nat, k: Kernel)
    requires id in s.buffers.handles && id in s.buffers.locals && id in s.buffers.vrams
    ensures var after := Unmapped(s, id, k);
            && id !in after.buffers.locals && id !in after.buffers.vrams
            && (id in after.buffers.handles <==> s.pending.Some?)
            && (s.pending.Some? ==>
                  (forall m, k1, k2 :: Mapped(after, id, m, k1, k2) == after)
                  && (forall k1 :: Unmapped(after, id, k1) == after))
  {
  }

  /** The buffer has a handle, but nobody can get at it any more. */
  predicate Leaked(s: State, id: nat) { id in s.buffers.handles && id !in s.buffers.locals }

  /** No request of a client is under way that would create or free a buffer. */
  predicate NoBufferRequest(s: State) {
    s.pending.Some? ==> s.pending.value.operation != Alloc && s.pending.value.operation != Free
  }

  lemma LeakLastsOneStep(s: State, step: Step, id: nat)
    requires Leaked(s, id) && NoBufferRequest(s)
    ensures Leaked(Next(s, step), id) && NoBufferRequest(Next(s, step))
  {
  }

  /** A leaked buffer stays leaked over every sequence of calls, and its id can never be mapped. */
  lemma {:induction false} LeakIsPermanent(s: State, steps: seq<Step>, id: nat)
    requires Leaked(s, id) && NoBufferRequest(s)
    ensures Leaked(Run(s, steps), id)
    ensures forall m, k :: !MapSucceeds(Run(s, steps), id, m, k)
    decreases |steps|
  {
    hide Next, NoBufferRequest;
    if steps != [] {
      LeakLastsOneStep(s, steps[0], id);
      LeakIsPermanent(Next(s, steps[0]), steps[1..], id);
    }
  }

  /** The leak is reachable: a buffer is mapped, a wait blocks, and the buffer is unmapped. */
  lemma LeakIsReachable()
    ensures var k, blocked := Kernel(false, true, 0, true, true), Kernel(true, true, 1, true, true);
            var s := Run(INITIAL, [Map(1, Memory(true, true), k, k), Complete(2, blocked), Unmap(1, k)]);
            Leaked(s, 1) && NoBufferRequest(s)
  {
    var k, blocked := Kernel(false, true, 0, true, true), Kernel(true, true, 1, true, true);
    var a, b, c := Map(1, Memory(true, true), k, k), Complete(2, blocked), Unmap(1, k);
    assert [a, b, c][1..] == [b, c] && [b, c][1..] == [c] && [c][1..] == [];
    var s1 := Next(INITIAL, a);
    var s2 := Next(s1, b);
    assert Run(s1, [b, c]) == Run(s2, [c]) && Run(s2, [c]) == Run(Next(s2, c), []);
  }

  /** A positive answer reports a finished wait, but for the asked-for object exactly unless an
      earlier wait for another object was interrupted and has finished meanwhile. */
  lemma WaitAnswersFor(s: State, seqno: nat, k: Kernel)
    requires WaitAnswer(s, seqno, k)
    ensures var r := Waited(s, seqno, k).completed;
            && r.Some? && r.value.operation == SyncobjWait && r.value.success
            && (r.value.subject == seqno
                <==> !(s.syncobjWait && s.completed.Some? && s.completed.value.operation == SyncobjWait
                       && s.completed.value.subject != seqno))
  {
  }

  /** Such a wrong answer is reachable: the wait for object 1 blocks and finishes, and the next call
      takes this for the completion of object 2. */
  lemma WaitMayAnswerForAnother()
    ensures var blocked := Kernel(true, true, 0, true, true);
            var s := Run(INITIAL, [Complete(1, blocked), WakeUp(blocked)]);
            WaitAnswer(s, 2, blocked) && Waited(s, 2, blocked).completed.value.subject == 1
  {
    var blocked := Kernel(true, true, 0, true, true);
    var steps := [Complete(1, blocked), WakeUp(blocked)];
    assert steps[1..] == [WakeUp(blocked)] && [WakeUp(blocked)][1..] == [];
    var s1 := Next(INITIAL, steps[0]);
    assert Run(s1, [WakeUp(blocked)]) == Run(Next(s1, WakeUp(blocked)), []);
  }

  // ---- the session ----

  class GpuSession {
    var pending: Option<Request>
    var completed: Option<Request>
    var buffers: Buffers
    var tags: nat
    var syncobjWait: bool

    function Value(): State
      reads this
    {
      State(pending, completed, buffers, tags, syncobjWait)
    }

    constructor ()
      ensures Value() == INITIAL
    {
      pending, completed, buffers, tags, syncobjWait := None, None, Buffers(map[], {}, {}, {}), 0, false;
    }

    method CreateRequest(operation: Operation, subject: nat) returns (r: Request)
      modifies this`tags
      ensures (Value(), r) == Create(old(Value()), operation, subject)
    {
      tags := tags + 1;
      r := Request(operation, subject, tags, false);
    }

    /** `dispatch_pending` for a request that does not block, or no longer. */
    method Dispatch(r: Request, k: Kernel) returns (done: Request)
      modifies this`buffers
      ensures buffers == BuffersAfter(r, old(buffers), k)
      ensures done == r.(success := Succeeds(r, old(buffers), k))
    {
      done := r.(success := false);
      match r.operation
      case Alloc =>
        if k.succeeds {
          buffers := buffers.(open := buffers.open + {k.handle});
          if !k.fits {
            buffers := buffers.(open := Closed(buffers.open, k.handle, k.closes));
          } else {
            buffers := buffers.(handles := buffers.handles[r.subject := k.handle]);
            done := r.(success := true);
          }
        }
      case Free =>
        if r.subject in buffers.handles {
          buffers := buffers.(open := Closed(buffers.open, buffers.handles[r.subject], k.closes));
          buffers := buffers.(handles := buffers.handles - {r.subject});
          done := r.(success := true);
        }
      case Wait =>
        if r.subject in buffers.handles {
          done := r.(success := k.succeeds);
        }
      case _ => done := r.(success := k.succeeds);
    }

    /** `with_pending_request`, up to the point where the worker blocks or is done. */
    method Work(k: Kernel)
      requires pending.Some?
      modifies this`pending, this`completed, this`buffers
      ensures Value() == Worked(old(Value()), k)
    {
      // prevent a blocked request from being taken for a finished one
      completed := None;
      if !(Waits(pending.value, buffers) && k.blocks) {
        Finish(k);
      }
    }

    method Finish(k: Kernel)
      requires pending.Some?
      modifies this`pending, this`completed, this`buffers
      ensures Value() == Completed(old(Value()), k)
    {
      var done := Dispatch(pending.value, k);
      completed := Some(done);
      pending := None;
    }

    /** `_schedule_request`: the result for the success function, or none for the failure one. */
    method ScheduleRequest(r: Request, k: Kernel) returns (result: Option<Request>)
      modifies this`pending, this`completed, this`buffers
      ensures Value() == Scheduled(old(Value()), r, k) && result == Result(old(Value()), r, k)
    {
      if pending.Some? {
        return None;
      }
      if !Managed(r, buffers) {
        return None;
      }
      pending := Some(r);
      Work(k);
      return if completed.Some? && completed.value.success then completed else None;
    }

    method Complete(seqno: nat, k: Kernel) returns (done: bool)
      modifies this
      ensures Value() == Waited(old(Value()), seqno, k) && done == WaitAnswer(old(Value()), seqno, k)
    {
      if syncobjWait {
        if pending.Some? && pending.value.operation == SyncobjWait {
          return false;
        }
        if completed.Some? && completed.value.operation == SyncobjWait {
          syncobjWait := false;
          return completed.value.success;
        }
      }
      var r := CreateRequest(SyncobjWait, seqno);
      syncobjWait := false;
      var result := ScheduleRequest(r, k);
      syncobjWait := result == None;
      return result != None;
    }

    method MapGpu(id: nat, m: Memory, k: Kernel, rollback: Kernel) returns (ok: bool)
      modifies this
      ensures Value() == Mapped(old(Value()), id, m, k, rollback)
      ensures ok <==> MapSucceeds(old(Value()), id, m, k)
    {
      if id in buffers.handles {
        return false;
      }
      var r := CreateRequest(Alloc, id);
      var result := ScheduleRequest(r, k);
      if result == None {
        return false;
      }
      ok := m.vram && m.local && id !in buffers.locals;
      if ok {
        buffers := buffers.(vrams := buffers.vrams + {id}, locals := buffers.locals + {id});
      } else {
        var f := CreateRequest(Free, id);
        var _ := ScheduleRequest(f, rollback);
      }
    }

    method UnmapGpu(id: nat, k: Kernel) returns (ok: bool)
      modifies this
      ensures Value() == Unmapped(old(Value()), id, k)
      ensures ok <==> id in old(buffers.locals) && id in old(buffers.vrams)
    {
      if id !in buffers.locals || id !in buffers.vrams {
        return false;
      }
      var r := CreateRequest(Free, id);
      buffers := buffers.(vrams := buffers.vrams - {id}, locals := buffers.locals - {id});
      var _ := ScheduleRequest(r, k);
      return true;
    }
  }
}
