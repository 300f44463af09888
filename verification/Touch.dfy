/** Multi-touch slots: from captured input values to touch and release events
    (src/driver/touch/goodix/input.c). */
module Touch {

  /** Codes of absolute-axis events as in the Linux input subsystem. */
  const EV_ABS: int := 3
  const ABS_MT_SLOT: int := 0x2f
  const ABS_MT_FIRST: int := 0x30
  const ABS_MT_WIDTH_MAJOR: int := 0x32
  const ABS_MT_POSITION_X: int := 0x35
  const ABS_MT_POSITION_Y: int := 0x36
  const ABS_MT_TOOL_Y: int := 0x3d

  const AXES: nat := 14

  datatype Value = Value(kind: int, code: int, value: int)

  /** The flags of a slot's key, and the latest value of each axis. */
  datatype Slot = Slot(changed: bool, present: bool, updated: bool, abs: seq<int>)

  datatype Event = Touched(finger: nat, x: int, y: int, width: int) | Released(finger: nat)

  predicate IsAxis(code: int) { ABS_MT_FIRST <= code <= ABS_MT_TOOL_Y }

  predicate Sized(s: Slot) { |s.abs| == AXES }

  predicate AllSized(slots: seq<Slot>) { forall i :: 0 <= i < |slots| ==> Sized(slots[i]) }

  // ---- what the three loops compute ----

  function Cleared(s: Slot): Slot { s.(changed := false, updated := false) }

  function WithValue(s: Slot, axis: nat, value: int): (r: Slot)
    requires Sized(s) && axis < AXES
    ensures Sized(r)
  {
    Slot(s.changed || s.abs[axis] != value, s.present, true, s.abs[axis := value])
  }

  function SlotSelected(current: int, v: Value): int {
    if v.kind == EV_ABS && v.code == ABS_MT_SLOT then v.value else current
  }

  /** The value belongs to the selected slot. */
  predicate Concerns(slots: nat, current: int, v: Value) {
    v.kind == EV_ABS && IsAxis(v.code) && 0 <= current < slots
  }

  function Captured(slots: seq<Slot>, current: int, v: Value): (r: seq<Slot>)
    requires AllSized(slots)
    ensures |r| == |slots| && AllSized(r)
  {
    if Concerns(|slots|, current, v)
    then slots[current := WithValue(slots[current], v.code - ABS_MT_FIRST, v.value)]
    else slots
  }

  function CapturedAll(slots: seq<Slot>, current: int, vals: seq<Value>): (r: seq<Slot>)
    requires AllSized(slots)
    ensures |r| == |slots| && AllSized(r)
    decreases |vals|
  {
    if vals == [] then slots
    else
      var now := SlotSelected(current, vals[0]);
      CapturedAll(Captured(slots, now, vals[0]), now, vals[1..])
  }

  function AllCleared(slots: seq<Slot>): (r: seq<Slot>)
    ensures |r| == |slots| && forall i :: 0 <= i < |slots| ==> r[i] == Cleared(slots[i])
  {
    if slots == [] then [] else [Cleared(slots[0])] + AllCleared(slots[1..])
  }

  /** The event that a slot gives rise to. */
  function EventOf(finger: nat, s: Slot): seq<Event>
    requires Sized(s)
  {
    if s.updated && (!s.present || s.changed) then
      [Touched(finger, s.abs[ABS_MT_POSITION_X - ABS_MT_FIRST], s.abs[ABS_MT_POSITION_Y - ABS_MT_FIRST],
               s.abs[ABS_MT_WIDTH_MAJOR - ABS_MT_FIRST])]
    else if s.present && !s.updated then [Released(finger)]
    else []
  }

  function Settled(s: Slot): Slot {
    if s.updated && (!s.present || s.changed) then s.(present := true)
    else if s.present && !s.updated then Slot(false, false, false, s.abs)
    else s
  }

  function EventsFrom(slots: seq<Slot>, first: nat): seq<Event>
    requires AllSized(slots) && first <= |slots|
    decreases |slots| - first
  {
    if first == |slots| then [] else EventOf(first, slots[first]) + EventsFrom(slots, first + 1)
  }

  /** The slots once a frame was captured. */
  function Frame(slots: seq<Slot>, vals: seq<Value>): (r: seq<Slot>)
    requires AllSized(slots)
    ensures |r| == |slots| && AllSized(r)
  {
    CapturedAll(AllCleared(slots), -1, vals)
  }

  function AllSettled(slots: seq<Slot>): (r: seq<Slot>)
    ensures |r| == |slots| && forall i :: 0 <= i < |slots| ==> r[i] == Settled(slots[i])
  {
    if slots == [] then [] else [Settled(slots[0])] + AllSettled(slots[1..])
  }

  // ---- the device ----

  class InputDev {
    const slots: array<Slot>
    const vals: array<Value>
    var numVals: nat
    /** What was submitted to the event session. */
    var submitted: seq<Event>

    ghost predicate Valid()
      reads this, slots
    {
      numVals <= vals.Length && AllSized(slots[..])
    }

    constructor (numSlots: nat, maxVals: nat)
      ensures Valid() && fresh(slots) && fresh(vals) && submitted == [] && numVals == 0
      ensures slots.Length == numSlots && vals.Length == maxVals
      ensures forall i :: 0 <= i < numSlots ==> slots[i] == Slot(false, false, false, seq(AXES, _ => 0))
    {
      var empty := Slot(false, false, false, seq(AXES, _ => 0));
      slots := new Slot[numSlots](_ => empty);
      vals := new Value[maxVals](_ => Value(0, 0, 0));
      numVals, submitted := 0, [];
    }

    /** Capture a value. Values beyond the capacity are dropped, as are values of other kinds. */
    method InputEvent(kind: int, code: int, value: int)
      requires Valid()
      modifies this`numVals, vals
      ensures Valid()
      ensures vals[..numVals] == old(vals[..numVals])
                + (if old(numVals) < vals.Length && kind == EV_ABS then [Value(kind, code, value)] else [])
    {
      if numVals == vals.Length {
        return;
      }
      if kind != EV_ABS {
        return;
      }
      vals[numVals] := Value(kind, code, value);
      numVals := numVals + 1;
    }

    method ClearFlags()
      requires Valid()
      modifies slots
      ensures Valid() && slots[..] == AllCleared(old(slots[..]))
    {
      for i := 0 to slots.Length
        invariant forall j :: 0 <= j < slots.Length ==>
                    slots[j] == if j < i then Cleared(old(slots[..])[j]) else old(slots[..])[j]
      {
        slots[i] := Cleared(slots[i]);
      }
    }

    method CaptureValues()
      requires Valid()
      modifies slots
      ensures Valid() && slots[..] == CapturedAll(old(slots[..]), -1, vals[..numVals])
    {
      var current := -1;
      for i := 0 to numVals
        invariant Valid()
        invariant CapturedAll(old(slots[..]), -1, vals[..numVals]) == CapturedAll(slots[..], current, vals[i..numVals])
      {
        assert vals[i..numVals][1..] == vals[i + 1..numVals];
        ghost var before := slots[..];
        var v := vals[i];
        current := SlotSelected(current, v);
        if Concerns(slots.Length, current, v) {
          slots[current] := WithValue(slots[current], v.code - ABS_MT_FIRST, v.value);
        }
        assert slots[..] == Captured(before, current, v);
      }
    }

    method SubmitEvents()
      requires Valid()
      modifies this`submitted, slots
      ensures Valid() && slots[..] == AllSettled(old(slots[..]))
      ensures submitted == old(submitted) + EventsFrom(old(slots[..]), 0)
    {
      ghost var was := slots[..];
      for i := 0 to slots.Length
        invariant AllSized(slots[..])
        invariant forall j :: 0 <= j < slots.Length ==> slots[j] == if j < i then Settled(was[j]) else was[j]
        invariant submitted + EventsFrom(was, i) == old(submitted) + EventsFrom(was, 0)
      {
        var slot := slots[i];
        submitted := submitted + EventOf(i, slot);
        slots[i] := Settled(slot);
      }
    }

    /** `event_generator`: turn the captured values into events. */
    method SyncFrame()
      requires Valid()
      modifies this, slots
      ensures Valid() && numVals == 0
      ensures var captured := Frame(old(slots[..]), old(vals[..numVals]));
              slots[..] == AllSettled(captured) && submitted == old(submitted) + EventsFrom(captured, 0)
    {
      ClearFlags();
      CaptureValues();
      SubmitEvents();
      numVals := 0;
    }
  }

  // ---- one frame ----

  predicate FingersWithin(es: seq<Event>, from: nat, to: nat) {
    forall k :: 0 <= k < |es| ==> from <= es[k].finger < to
  }

  predicate FingersIncrease(es: seq<Event>) {
    forall j, k :: 0 <= j < k < |es| ==> es[j].finger < es[k].finger
  }

  /** The events of a frame are in the order of their fingers, so no finger has two. */
  lemma {:induction false} OneEventPerFinger(slots: seq<Slot>, first: nat)
    requires AllSized(slots) && first <= |slots|
    ensures FingersWithin(EventsFrom(slots, first), first, |slots|) && FingersIncrease(EventsFrom(slots, first))
    decreases |slots| - first
  {
    if first < |slots| {
      var e, rest := EventOf(first, slots[first]), EventsFrom(slots, first + 1);
      OneEventPerFinger(slots, first + 1);
      assert forall k :: 0 <= k < |rest| ==> first + 1 <= rest[k].finger < |slots|;
      assert EventsFrom(slots, first) == e + rest;
    }
  }

  /** The last value captured for a finger's axis, or else the given one. */
  function Latest(slots: nat, current: int, vals: seq<Value>, finger: nat, axis: nat, before: int): int
    decreases |vals|
  {
    if vals == [] then before
    else
      var now := SlotSelected(current, vals[0]);
      var mine := Concerns(slots, now, vals[0]) && now == finger && vals[0].code == ABS_MT_FIRST + axis;
      Latest(slots, now, vals[1..], finger, axis, if mine then vals[0].value else before)
  }

  /** The finger is featured in the captured values. */
  predicate Featured(slots: nat, current: int, vals: seq<Value>, finger: nat)
    decreases |vals|
  {
    vals != [] &&
      var now := SlotSelected(current, vals[0]);
      (Concerns(slots, now, vals[0]) && now == finger) || Featured(slots, now, vals[1..], finger)
  }

  lemma {:induction false} CapturedMeans(slots: seq<Slot>, current: int, vals: seq<Value>, finger: nat)
    requires AllSized(slots) && finger < |slots|
    ensures var r := CapturedAll(slots, current, vals)[finger];
            && r.present == slots[finger].present
            && (r.updated <==> slots[finger].updated || Featured(|slots|, current, vals, finger))
            && forall axis: nat :: axis < AXES ==>
                 r.abs[axis] == Latest(|slots|, current, vals, finger, axis, slots[finger].abs[axis])
    decreases |vals|
  {
    if vals != [] {
      var now := SlotSelected(current, vals[0]);
      CapturedMeans(Captured(slots, now, vals[0]), now, vals[1..], finger);
    }
  }

  // ---- many frames ----

  function SlotsAfter(slots: seq<Slot>, frames: seq<seq<Value>>): (r: seq<Slot>)
    requires AllSized(slots)
    ensures |r| == |slots| && AllSized(r)
    decreases |frames|
  {
    if frames == [] then slots else SlotsAfter(AllSettled(Frame(slots, frames[0])), frames[1..])
  }

  function EventsOver(slots: seq<Slot>, frames: seq<seq<Value>>): seq<Event>
    requires AllSized(slots)
    decreases |frames|
  {
    if frames == [] then []
    else EventsFrom(Frame(slots, frames[0]), 0) + EventsOver(AllSettled(Frame(slots, frames[0])), frames[1..])
  }

  /** The last event of a finger was a touch. */
  predicate Down(history: seq<Event>, finger: nat) {
    history != [] &&
      var last := history[|history| - 1];
      if last.finger == finger then last.Touched? else Down(history[..|history| - 1], finger)
  }

  /** Each release ends a touch of the same finger. */
  predicate ReleasesMatch(history: seq<Event>) {
    forall k :: 0 <= k < |history| && history[k].Released? ==> Down(history[..k], history[k].finger)
  }

  /** A finger is marked as present exactly if its last event was a touch. */
  predicate Consistent(slots: seq<Slot>, history: seq<Event>) {
    forall i :: 0 <= i < |slots| ==> (slots[i].present <==> Down(history, i))
  }

  lemma DownAfter(history: seq<Event>, e: Event, finger: nat)
    ensures Down(history + [e], finger) <==> if e.finger == finger then e.Touched? else Down(history, finger)
  {
    assert (history + [e])[..|history|] == history;
  }

  lemma ReleaseAfter(history: seq<Event>, e: Event)
    requires ReleasesMatch(history) && (e.Released? ==> Down(history, e.finger))
    ensures ReleasesMatch(history + [e])
  {
    var h := history + [e];
    assert forall k :: 0 <= k <= |history| ==> h[..k] == history[..k];
    assert history[..|history|] == history;
  }

  lemma SlotKeepsConsistent(s: Slot, finger: nat, history: seq<Event>)
    requires Sized(s) && ReleasesMatch(history) && (s.present <==> Down(history, finger))
    ensures ReleasesMatch(history + EventOf(finger, s))
    ensures Settled(s).present <==> Down(history + EventOf(finger, s), finger)
  {
    hide Down;
    var e := EventOf(finger, s);
    if e != [] {
      DownAfter(history, e[0], finger);
      ReleaseAfter(history, e[0]);
    } else {
      assert history + e == history;
    }
  }

  lemma OthersUnaffected(s: Slot, finger: nat, history: seq<Event>, i: nat)
    requires Sized(s) && i != finger
    ensures Down(history + EventOf(finger, s), i) <==> Down(history, i)
  {
    hide Down;
    var e := EventOf(finger, s);
    if e != [] {
      DownAfter(history, e[0], i);
    } else {
      assert history + e == history;
    }
  }

  /** Submitting the events of the slots from `first` on: the flags of the slots before it are
      settled, the others are as captured. */
  lemma {:induction false} EventsKeepConsistent(slots: seq<Slot>, first: nat, history: seq<Event>)
    requires AllSized(slots) && first <= |slots| && ReleasesMatch(history)
    requires forall i :: 0 <= i < |slots| ==>
               ((if i < first then Settled(slots[i]) else slots[i]).present <==> Down(history, i))
    ensures var after := history + EventsFrom(slots, first);
            Consistent(AllSettled(slots), after) && ReleasesMatch(after)
    decreases |slots| - first
  {
    if first == |slots| {
      assert history + EventsFrom(slots, first) == history;
    } else {
      var e := EventOf(first, slots[first]);
      var rest := EventsFrom(slots, first + 1);
      assert history + (e + rest) == (history + e) + rest;
      SlotKeepsConsistent(slots[first], first, history);
      forall i | 0 <= i < |slots| && i != first ensures Down(history + e, i) <==> Down(history, i) {
        OthersUnaffected(slots[first], first, history, i);
      }
      hide Down, EventOf, Settled, ReleasesMatch;
      EventsKeepConsistent(slots, first + 1, history + e);
    }
  }

  /** Over every sequence of frames: a finger is present exactly if its last event was a touch, and
      a release only ever ends a touch of the same finger. */
  lemma {:induction false} FramesKeepConsistent(slots: seq<Slot>, history: seq<Event>, frames: seq<seq<Value>>)
    requires AllSized(slots) && Consistent(slots, history) && ReleasesMatch(history)
    ensures Consistent(SlotsAfter(slots, frames), history + EventsOver(slots, frames))
    ensures ReleasesMatch(history + EventsOver(slots, frames))
    decreases |frames|
  {
    if frames == [] {
      assert history + [] == history;
    } else {
      var captured := Frame(slots, frames[0]);
      forall i | 0 <= i < |slots| ensures captured[i].present == slots[i].present {
        CapturedMeans(AllCleared(slots), -1, frames[0], i);
      }
      EventsKeepConsistent(captured, 0, history);
      var now, later := EventsFrom(captured, 0), EventsOver(AllSettled(captured), frames[1..]);
      FramesKeepConsistent(AllSettled(captured), history + now, frames[1..]);
      assert history + (now + later) == (history + now) + later;
    }
  }

  /** The last value captured for a finger's axis over all frames. */
  function LatestOver(slots: nat, frames: seq<seq<Value>>, finger: nat, axis: nat, before: int): int
    decreases |frames|
  {
    if frames == [] then before
    else LatestOver(slots, frames[1..], finger, axis, Latest(slots, -1, frames[0], finger, axis, before))
  }

  lemma {:induction false} FramesKeepLatest(slots: seq<Slot>, frames: seq<seq<Value>>, finger: nat, axis: nat)
    requires AllSized(slots) && finger < |slots| && axis < AXES
    ensures SlotsAfter(slots, frames)[finger].abs[axis]
         == LatestOver(|slots|, frames, finger, axis, slots[finger].abs[axis])
    decreases |frames|
  {
    if frames != [] {
      var captured := Frame(slots, frames[0]);
      CapturedMeans(AllCleared(slots), -1, frames[0], finger);
      FramesKeepLatest(AllSettled(captured), frames[1..], finger, axis);
    }
  }

  /** Some value captured for the finger differs from the one before it on the same axis, given the
      values `abs` that the finger starts with. */
  predicate Moves(slots: nat, current: int, vals: seq<Value>, finger: nat, abs: seq<int>)
    requires |abs| == AXES
    decreases |vals|
  {
    vals != [] &&
      var now := SlotSelected(current, vals[0]);
      if Concerns(slots, now, vals[0]) && now == finger then
        var axis := vals[0].code - ABS_MT_FIRST;
        abs[axis] != vals[0].value || Moves(slots, now, vals[1..], finger, abs[axis := vals[0].value])
      else Moves(slots, now, vals[1..], finger, abs)
  }

  lemma {:induction false} ChangedMeans(slots: seq<Slot>, current: int, vals: seq<Value>, finger: nat)
    requires AllSized(slots) && finger < |slots|
    ensures CapturedAll(slots, current, vals)[finger].changed
       <==> (slots[finger].changed || Moves(|slots|, current, vals, finger, slots[finger].abs))
    decreases |vals|
  {
    if vals != [] {
      var now := SlotSelected(current, vals[0]);
      ChangedMeans(Captured(slots, now, vals[0]), now, vals[1..], finger);
    }
  }

  /** A touch at the coordinates captured last for the finger. */
  predicate TouchedAtLatest(e: Event, slots: seq<Slot>, frames: seq<seq<Value>>, finger: nat)
    requires AllSized(slots) && finger < |slots|
  {
    var n, abs := |slots|, slots[finger].abs;
    e == Touched(finger,
                 LatestOver(n, frames, finger, ABS_MT_POSITION_X - ABS_MT_FIRST, abs[ABS_MT_POSITION_X - ABS_MT_FIRST]),
                 LatestOver(n, frames, finger, ABS_MT_POSITION_Y - ABS_MT_FIRST, abs[ABS_MT_POSITION_Y - ABS_MT_FIRST]),
                 LatestOver(n, frames, finger, ABS_MT_WIDTH_MAJOR - ABS_MT_FIRST, abs[ABS_MT_WIDTH_MAJOR - ABS_MT_FIRST]))
  }

  /** Exactly which event a finger has in a frame that follows others, and with which coordinates. It
      is touched if it is featured and either new or moved, released if it was present and is not
      featured, and silent otherwise. The coordinates are the last ones captured for the finger in
      this or an earlier frame. */
  lemma EventMeans(slots: seq<Slot>, frames: seq<seq<Value>>, vals: seq<Value>, finger: nat)
    requires AllSized(slots) && finger < |slots|
    ensures var before := SlotsAfter(slots, frames);
            var e := EventOf(finger, Frame(before, vals)[finger]);
            var present := before[finger].present;
            var featured := Featured(|slots|, -1, vals, finger);
            var moved := Moves(|slots|, -1, vals, finger, before[finger].abs);
            if featured && (!present || moved) then |e| == 1 && TouchedAtLatest(e[0], slots, frames + [vals], finger)
            else if present && !featured then e == [Released(finger)]
            else e == []
  {
    ChangedMeans(AllCleared(SlotsAfter(slots, frames)), -1, vals, finger);
    var before := SlotsAfter(slots, frames);
    CapturedMeans(AllCleared(before), -1, vals, finger);
    forall axis: nat | axis < AXES
      ensures Frame(before, vals)[finger].abs[axis]
           == LatestOver(|slots|, frames + [vals], finger, axis, slots[finger].abs[axis])
    {
      FramesKeepLatest(slots, frames, finger, axis);
      LatestOverAppend(|slots|, frames, vals, finger, axis, slots[finger].abs[axis]);
    }
  }

  lemma {:induction false} LatestOverAppend(slots: nat, frames: seq<seq<Value>>, vals: seq<Value>, finger: nat,
                                            axis: nat, before: int)
    ensures LatestOver(slots, frames + [vals], finger, axis, before)
         == Latest(slots, -1, vals, finger, axis, LatestOver(slots, frames, finger, axis, before))
    decreases |frames|
  {
    if frames == [] {
      assert ([] + [vals])[1..] == [] && ([] + [vals])[0] == vals;
      assert frames + [vals] == [vals];
    } else {
      assert (frames + [vals])[1..] == frames[1..] + [vals];
      LatestOverAppend(slots, frames[1..], vals, finger, axis, Latest(slots, -1, frames[0], finger, axis, before));
    }
  }

  // ---- which values belong to a finger ----

  predicate IsSelection(v: Value) { v.kind == 3 && v.code == 47 }

  /** At position `i` the finger is selected: the last selection up to there, if any, is of this
      finger; without any, it was selected before. */
  predicate IsSelected(current: int, vals: seq<Value>, i: nat, finger: int)
    requires i < |vals|
  {
    || (exists j :: 0 <= j <= i && IsSelection(vals[j]) && vals[j].value == finger
                    && forall m :: j < m <= i ==> !IsSelection(vals[m]))
    || (current == finger && forall m :: 0 <= m <= i ==> !IsSelection(vals[m]))
  }

  /** The value at position `i` is one of the finger's values, for one of the 14 axes from code 48 on. */
  predicate IsOwn(current: int, vals: seq<Value>, i: nat, finger: int) {
    i < |vals| && vals[i].kind == 3 && 48 <= vals[i].code < 62 && IsSelected(current, vals, i, finger)
  }

  lemma SelectedAtFirst(current: int, vals: seq<Value>, finger: int)
    requires vals != []
    ensures IsSelected(current, vals, 0, finger) <==> SlotSelected(current, vals[0]) == finger
  {
  }

  lemma SelectedLater(current: int, vals: seq<Value>, i: nat, finger: int)
    requires 0 < i < |vals|
    ensures IsSelected(current, vals, i, finger)
       <==> IsSelected(SlotSelected(current, vals[0]), vals[1..], i - 1, finger)
  {
    var now, rest := SlotSelected(current, vals[0]), vals[1..];
    assert forall j :: 0 <= j < |rest| ==> rest[j] == vals[j + 1];
    if j :| 0 <= j <= i && IsSelection(vals[j]) && vals[j].value == finger && forall m :: j < m <= i ==> !IsSelection(vals[m]) {
      if j > 0 {
        assert IsSelection(rest[j - 1]) && forall m :: j - 1 < m <= i - 1 ==> !IsSelection(rest[m]);
      } else {
        assert now == finger && forall m :: 0 <= m <= i - 1 ==> !IsSelection(rest[m]);
      }
    }
    if j :| 0 <= j <= i - 1 && IsSelection(rest[j]) && rest[j].value == finger
            && forall m :: j < m <= i - 1 ==> !IsSelection(rest[m]) {
      assert forall m :: j + 1 < m <= i ==> vals[m] == rest[m - 1];
      assert IsSelection(vals[j + 1]) && vals[j + 1].value == finger;
    }
    if forall m :: 0 <= m <= i - 1 ==> !IsSelection(rest[m]) {
      assert forall m :: 1 <= m <= i ==> vals[m] == rest[m - 1];
      assert IsSelection(vals[0]) ==> vals[0].value == now;
    }
  }

  lemma OwnFirst(slots: nat, current: int, vals: seq<Value>, finger: nat)
    requires vals != [] && finger < slots
    ensures var now := SlotSelected(current, vals[0]);
            IsOwn(current, vals, 0, finger) <==> Concerns(slots, now, vals[0]) && now == finger
  {
    SelectedAtFirst(current, vals, finger);
  }

  lemma OwnLater(current: int, vals: seq<Value>, finger: int)
    requires vals != []
    ensures forall i: nat :: IsOwn(SlotSelected(current, vals[0]), vals[1..], i, finger) <==> IsOwn(current, vals, i + 1, finger)
  {
    hide IsSelected, SlotSelected;
    forall i: nat
      ensures IsOwn(SlotSelected(current, vals[0]), vals[1..], i, finger) <==> IsOwn(current, vals, i + 1, finger)
    {
      if i + 1 < |vals| { SelectedLater(current, vals, i + 1, finger); }
    }
  }

  /** A finger is featured exactly if some value is its own. */
  lemma {:induction false} FeaturedMeans(slots: nat, current: int, vals: seq<Value>, finger: nat)
    requires finger < slots
    ensures Featured(slots, current, vals, finger) <==> exists i: nat :: IsOwn(current, vals, i, finger)
    decreases |vals|
  {
    hide IsOwn, SlotSelected, Concerns;
    if vals == [] {
      assert forall i: nat :: !IsOwn(current, vals, i, finger) by { NothingOwn(current, finger); }
    } else {
      var now := SlotSelected(current, vals[0]);
      OwnFirst(slots, current, vals, finger);
      OwnLater(current, vals, finger);
      FeaturedMeans(slots, now, vals[1..], finger);
      if i: nat :| IsOwn(current, vals, i, finger) {
        if i > 0 { assert IsOwn(now, vals[1..], i - 1, finger); }
      }
    }
  }

  lemma NothingOwn(current: int, finger: int)
    ensures forall i: nat :: !IsOwn(current, [], i, finger)
  {
  }

  /** Position `i` holds the finger's last value for the axis. */
  predicate IsLast(current: int, vals: seq<Value>, i: nat, finger: int, axis: nat) {
    && IsOwn(current, vals, i, finger) && vals[i].code == 48 + axis
    && forall m: nat :: i < m < |vals| && IsOwn(current, vals, m, finger) ==> vals[m].code != 48 + axis
  }

  /** The latest value for an axis is the finger's last value for it; without any, it is the one before. */
  lemma {:induction false} LatestMeans(slots: nat, current: int, vals: seq<Value>, finger: nat, axis: nat, before: int)
    requires finger < slots && axis < AXES
    ensures forall i: nat :: IsLast(current, vals, i, finger, axis) ==>
              Latest(slots, current, vals, finger, axis, before) == vals[i].value
    ensures (forall i: nat :: IsOwn(current, vals, i, finger) ==> vals[i].code != 48 + axis) ==>
              Latest(slots, current, vals, finger, axis, before) == before
    decreases |vals|
  {
    hide IsOwn, SlotSelected, Concerns;
    if vals == [] {
      NothingOwn(current, finger);
    } else {
      var now, rest := SlotSelected(current, vals[0]), vals[1..];
      var mine := Concerns(slots, now, vals[0]) && now == finger && vals[0].code == ABS_MT_FIRST + axis;
      OwnFirst(slots, current, vals, finger);
      OwnLater(current, vals, finger);
      OwnIsInside(now, rest, finger);
      OwnIsInside(current, vals, finger);
      LatestMeans(slots, now, rest, finger, axis, if mine then vals[0].value else before);
      forall i: nat | IsLast(current, vals, i, finger, axis)
        ensures Latest(slots, current, vals, finger, axis, before) == vals[i].value
      {
        if i > 0 {
          assert IsOwn(now, rest, i - 1, finger);
          forall m: nat | i - 1 < m < |rest| && IsOwn(now, rest, m, finger) ensures rest[m].code != 48 + axis {
            assert IsOwn(current, vals, m + 1, finger);
          }
          assert IsLast(now, rest, i - 1, finger, axis);
        } else {
          forall m: nat | IsOwn(now, rest, m, finger) ensures rest[m].code != 48 + axis {
            assert IsOwn(current, vals, m + 1, finger);
          }
        }
      }
      if forall i: nat :: IsOwn(current, vals, i, finger) ==> vals[i].code != 48 + axis {
        forall m: nat | IsOwn(now, rest, m, finger) ensures rest[m].code != 48 + axis {
          assert IsOwn(current, vals, m + 1, finger);
        }
      }
    }
  }

  lemma OwnIsInside(current: int, vals: seq<Value>, finger: int)
    ensures forall i: nat :: IsOwn(current, vals, i, finger) ==> i < |vals|
  {
  }

  /** Position `i` holds a value of the finger that differs from its latest one for the same axis. */
  predicate IsNew(slots: nat, current: int, vals: seq<Value>, i: nat, finger: nat, abs: seq<int>)
    requires |abs| == AXES
  {
    IsOwn(current, vals, i, finger)
    && var axis := vals[i].code - 48;
       Latest(slots, current, vals[..i], finger, axis, abs[axis]) != vals[i].value
  }

  /** A finger moves exactly if one of its values is new. */
  lemma {:induction false} MovesMeans(slots: nat, current: int, vals: seq<Value>, finger: nat, abs: seq<int>)
    requires finger < slots && |abs| == AXES
    ensures Moves(slots, current, vals, finger, abs) <==> exists i: nat :: IsNew(slots, current, vals, i, finger, abs)
    decreases |vals|
  {
    hide IsNew, SlotSelected, Latest;
    if vals == [] {
      assert forall i: nat :: !IsNew(slots, current, vals, i, finger, abs) by { NothingNew(slots, current, finger, abs); }
    } else {
      var now, rest := SlotSelected(current, vals[0]), vals[1..];
      OwnFirst(slots, current, vals, finger);
      var mine := Concerns(slots, now, vals[0]) && now == finger;
      var abs' := if mine then abs[vals[0].code - ABS_MT_FIRST := vals[0].value] else abs;
      NewFirst(slots, current, vals, finger, abs);
      forall i: nat ensures IsNew(slots, current, vals, i + 1, finger, abs) <==> IsNew(slots, now, rest, i, finger, abs') {
        NewLater(slots, current, vals, i, finger, abs);
      }
      hide IsOwn, Concerns;
      MovesMeans(slots, now, rest, finger, abs');
      if i: nat :| IsNew(slots, current, vals, i, finger, abs) {
        if i > 0 { assert IsNew(slots, now, rest, i - 1, finger, abs'); }
      }
    }
  }

  lemma NothingNew(slots: nat, current: int, finger: nat, abs: seq<int>)
    requires |abs| == AXES
    ensures forall i: nat :: !IsNew(slots, current, [], i, finger, abs)
  {
  }

  lemma NewFirst(slots: nat, current: int, vals: seq<Value>, finger: nat, abs: seq<int>)
    requires vals != [] && finger < slots && |abs| == AXES
    ensures var now := SlotSelected(current, vals[0]);
            IsNew(slots, current, vals, 0, finger, abs) <==>
              Concerns(slots, now, vals[0]) && now == finger && abs[vals[0].code - ABS_MT_FIRST] != vals[0].value
  {
    OwnFirst(slots, current, vals, finger);
    assert vals[..0] == [];
  }

  lemma NewLater(slots: nat, current: int, vals: seq<Value>, i: nat, finger: nat, abs: seq<int>)
    requires vals != [] && finger < slots && |abs| == AXES
    ensures var now := SlotSelected(current, vals[0]);
            var abs' := if Concerns(slots, now, vals[0]) && now == finger
                        then abs[vals[0].code - ABS_MT_FIRST := vals[0].value] else abs;
            IsNew(slots, current, vals, i + 1, finger, abs) <==> IsNew(slots, now, vals[1..], i, finger, abs')
  {
    hide IsSelected, SlotSelected;
    OwnLater(current, vals, finger);
    if i + 1 < |vals| {
      assert vals[..i + 1][1..] == vals[1..][..i] && vals[..i + 1][0] == vals[0];
    }
  }
}
