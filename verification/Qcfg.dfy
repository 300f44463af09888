/** The modem settings the driver relies on (src/driver/modem/at_protocol/qcfg.h). */
module Qcfgs {
  import opened Options

  datatype EntryState = Unknown | Confirmed | Mismatch | Modified

  datatype Entry = Entry(name: string, value: string, state: EntryState)

  // ---- what the registry traversals compute ----

  /** Index of the first entry with the given name, or the number of entries. */
  function Find(es: seq<Entry>, name: string): (i: nat)
    ensures i <= |es|
    ensures i < |es| ==> es[i].name == name
    ensures forall k :: 0 <= k < i ==> es[k].name != name
  {
    if es == [] || es[0].name == name then 0 else 1 + Find(es[1..], name)
  }

  function FirstIn(es: seq<Entry>, state: EntryState): (r: Option<Entry>)
    ensures r.Some? ==> r.value in es && r.value.state == state
    ensures r.None? <==> Lacks(es, state)
  {
    if es == [] then None
    else if es[0].state == state then Some(es[0])
    else
      assert forall i :: 0 < i < |es| ==> es[i] == es[1..][i - 1];
      FirstIn(es[1..], state)
  }

  function WithState(es: seq<Entry>, name: string, state: EntryState): seq<Entry> {
    var i := Find(es, name);
    if i == |es| then es else es[i := es[i].(state := state)]
  }

  predicate Lacks(es: seq<Entry>, state: EntryState) {
    forall i :: 0 <= i < |es| ==> es[i].state != state
  }

  /** Something was changed and nothing is left to be queried or assigned. */
  predicate RebootNeeded(es: seq<Entry>) {
    Lacks(es, Unknown) && Lacks(es, Mismatch) && !Lacks(es, Modified)
  }

  function Invalidated(es: seq<Entry>): seq<Entry> {
    seq(|es|, i requires 0 <= i < |es| => es[i].(state := Unknown))
  }

  class Qcfg {
    var entries: seq<Entry>

    constructor (entries: seq<Entry>)
      ensures this.entries == entries
    {
      this.entries := entries;
    }

    method AnyEntryInState(state: EntryState) returns (r: Option<Entry>)
      ensures r == FirstIn(entries, state)
    {
      r := None;
      var done := false;
      for i := 0 to |entries|
        invariant done == r.Some?
        invariant FirstIn(entries, state) == if done then r else FirstIn(entries[i..], state)
      {
        if !done && entries[i].state == state {
          r := Some(entries[i]);
          done := true;
        }
        assert entries[i..][1..] == entries[i + 1..];
      }
    }

    method FindEntry(name: string) returns (i: nat)
      ensures i == Find(entries, name)
    {
      i := 0;
      while i < |entries| && entries[i].name != name
        invariant i <= |entries|
        invariant Find(entries, name) == i + Find(entries[i..], name)
      {
        assert entries[i..][1..] == entries[i + 1..];
        i := i + 1;
      }
    }

    method SetState(name: string, state: EntryState)
      modifies this
      ensures entries == WithState(old(entries), name, state)
    {
      var i := FindEntry(name);
      if i < |entries| {
        entries := entries[i := entries[i].(state := state)];
      }
    }

    method NeedsReboot() returns (r: bool)
      ensures r == RebootNeeded(entries)
    {
      var anyUnknown, anyMismatch, anyModified := false, false, false;
      for i := 0 to |entries|
        invariant anyUnknown == !Lacks(entries[..i], Unknown)
        invariant anyMismatch == !Lacks(entries[..i], Mismatch)
        invariant anyModified == !Lacks(entries[..i], Modified)
      {
        LacksStep(entries, i);
        anyUnknown := anyUnknown || entries[i].state == Unknown;
        anyMismatch := anyMismatch || entries[i].state == Mismatch;
        anyModified := anyModified || entries[i].state == Modified;
      }
      assert entries[..|entries|] == entries;
      if anyUnknown || anyMismatch {
        return false;
      }
      return anyModified;
    }

    method InvalidateAfterReboot()
      modifies this
      ensures entries == Invalidated(old(entries))
    {
      for i := 0 to |entries|
        invariant |entries| == |old(entries)|
        invariant forall j :: 0 <= j < |entries| ==>
                    entries[j] == if j < i then old(entries)[j].(state := Unknown) else old(entries)[j]
      {
        entries := entries[i := entries[i].(state := Unknown)];
      }
    }
  }

  lemma LacksStep(es: seq<Entry>, i: nat)
    requires i < |es|
    ensures forall s :: Lacks(es[..i + 1], s) <==> Lacks(es[..i], s) && es[i].state != s
  {
    assert es[..i + 1] == es[..i] + [es[i]];
    forall s ensures Lacks(es[..i + 1], s) <==> Lacks(es[..i], s) && es[i].state != s {
      if Lacks(es[..i + 1], s) {
        assert es[..i + 1][i] == es[i];
        assert forall k :: 0 <= k < i ==> es[..i][k] == es[..i + 1][k];
      }
    }
  }
}
