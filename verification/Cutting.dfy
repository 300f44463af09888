/** How far the protocol state depends on the way the modem's output is cut into reads. */
module Cutting {
  import opened Options
  import opened AtText
  import opened ReadBuffers
  import opened Qcfgs
  import opened Statuses
  import opened Drivers

  /** Equal, except for having heard POWERED DOWN last. */
  predicate AgreeButPower(a: Status, b: Status) {
    && a.link.atOk == b.link.atOk && a.link.echoDisabled == b.link.echoDisabled
    && a.link.rdy == b.link.rdy
    && a.cmd == b.cmd && a.sim == b.sim && a.calls == b.calls && a.counts == b.counts
  }

  /** A known call implies a valid call list. */
  predicate CallKnown(c: Calls) { c.current.Some? ==> c.upToDate }

  lemma LineMakesCallKnown(c: Calls, pending: Option<string>, m: Message)
    ensures CallKnown(CallsAfter(c, pending, m))
  {
  }

  lemma EmptyLineSaysNothing()
    ensures Parse("") == Message(false, false, false, false, false, false, false, false, false,
                                 None, None, None, None, None)
  {
  }

  /** An empty line makes the driver forget that the modem is powered down, and takes a known call
      for a valid call list. */
  lemma EmptyLineMarks(s: Status, es: seq<Entry>)
    ensures AgreeButPower(Apply(s, es, Parse("")), Marked(s)) && !Apply(s, es, Parse("")).link.poweredDown
    ensures EntriesAfter(es, s.cmd.pending, Parse("")) == es
  {
    EmptyLineSaysNothing();
    hide Parse, AssignedName;
  }

  /** The status with a call list that counts as valid if a call is known. */
  function Marked(s: Status): (r: Status)
    ensures CallKnown(r.calls)
  {
    s.(calls := Calls(s.calls.upToDate || s.calls.current.Some?, s.calls.current))
  }

  /** Apart from the note about being powered down, an empty line is harmless exactly if no call is
      known, or the call list counts as valid anyway. */
  lemma EmptyLineIsHarmlessExactlyIf(s: Status, es: seq<Entry>)
    ensures AgreeButPower(Apply(s, es, Parse("")), s) <==> CallKnown(s.calls)
  {
    hide Parse, Apply;
    EmptyLineMarks(s, es);
  }

  /** Any line marks the call list. */
  lemma LineMarks(s: Status, es: seq<Entry>, m: Message)
    ensures Apply(s, es, m) == Apply(Marked(s), es, m)
  {
    hide Changes;
  }

  lemma LinesMark(s: Status, es: seq<Entry>, lines: seq<string>)
    requires lines != []
    ensures ApplyLines(s, es, lines) == ApplyLines(Marked(s), es, lines)
  {
    hide Apply, EntriesAfter, Parse;
    LineMarks(s, es, Parse(lines[0]));
  }

  lemma SameMessage(s: Status, t: Status, es: seq<Entry>, m: Message)
    requires AgreeButPower(s, t)
    ensures AgreeButPower(Apply(s, es, m), Apply(t, es, m))
    ensures CallKnown(Apply(s, es, m).calls)
  {
    hide Changes;
    LineMakesCallKnown(s.calls, s.cmd.pending, m);
  }

  /** Dropping the empty lines makes no other difference. */
  lemma {:induction false} NonEmptyLinesSuffice(s: Status, t: Status, es: seq<Entry>, lines: seq<string>)
    requires AgreeButPower(s, t) && CallKnown(s.calls)
    ensures AgreeButPower(ApplyLines(s, es, lines).0, ApplyLines(t, es, NonEmpty(lines)).0)
    ensures ApplyLines(s, es, lines).1 == ApplyLines(t, es, NonEmpty(lines)).1
    decreases |lines|
  {
    if lines != [] {
      hide Apply, Parse, EntriesAfter;
      var m := Parse(lines[0]);
      var s', es' := Apply(s, es, m), EntriesAfter(es, s.cmd.pending, m);
      if lines[0] == [] {
        assert NonEmpty(lines) == NonEmpty(lines[1..]);
        EmptyLineMarks(s, es);
        NonEmptyLinesSuffice(s', t, es, lines[1..]);
      } else {
        SameMessage(s, t, es, m);
        assert NonEmpty(lines)[1..] == NonEmpty(lines[1..]);
        NonEmptyLinesSuffice(s', Apply(t, es, m), es', lines[1..]);
      }
    }
  }

  // ---- the reads of the driver, with its bounded buffer ----

  predicate Gapless(chunks: seq<string>) {
    forall i :: 0 <= i < |chunks| ==> chunks[i] != []
  }

  lemma ReadTakesFront(chunks: seq<string>, len: nat)
    ensures Flatten(chunks) == NextRead(chunks, len).0 + Flatten(NextRead(chunks, len).1)
    ensures len > 0 && Gapless(chunks) ==>
              Gapless(NextRead(chunks, len).1) && (NextRead(chunks, len).0 == [] ==> chunks == [])
  {
    if chunks != [] {
      var c := chunks[0];
      if |c| <= len {
        assert Gapless(chunks) ==> forall i :: 0 <= i < |chunks[1..]| ==> chunks[1..][i] == chunks[i + 1];
      } else {
        var rest := [c[len..]] + chunks[1..];
        assert rest[1..] == chunks[1..];
        assert c == c[..len] + c[len..];
        assert c[..len] + (c[len..] + Flatten(chunks[1..])) == c + Flatten(chunks[1..]);
      }
    }
  }

  /** The non-empty ones of `lines` come first in `all`, and `later` is the rest. */
  predicate ThenComes(all: (seq<string>, string), lines: seq<string>, later: (seq<string>, string)) {
    all == (NonEmpty(lines) + later.0, later.1)
  }

  lemma ThenComesMore(all: (seq<string>, string), a: seq<string>, later: (seq<string>, string),
                      b: seq<string>, latest: (seq<string>, string))
    requires ThenComes(all, a, later) && ThenComes(later, b, latest)
    ensures ThenComes(all, a + b, latest)
  {
    NonEmptyConcat(a, b);
    assert NonEmpty(a) + (NonEmpty(b) + latest.0) == NonEmpty(a) + NonEmpty(b) + latest.0;
  }

  /** One read, and the consumption of the lines that it completes. */
  lemma ReadIsSplit(max: nat, buf: string, data: string, rest: string)
    requires EolFree(buf) && LinesFit(max, data + rest, buf)
    ensures var now := Consume(max, buf + data);
            && EolFree(now.1) && LinesFit(max, rest, now.1)
            && ThenComes(Split(data + rest, buf), now.0, Split(rest, now.1))
  {
    SplitEolFree(buf, []);
    assert [] + buf == buf && [] + Split(data, buf).0 == Split(data, buf).0;
    ConsumeLeavesNoLine(max, buf + data);
    hide Split, Consume, LinesFit, EolFree, IsEol;
    SplitConcat(buf, data, []);
    ConsumeIsSplit(max, buf + data);
    LinesFitConcat(max, data, rest, buf);
    SplitConcat(data, rest, buf);
  }

  /** Reading until the modem falls silent hands out the lines of the stream, in whatever pieces
      it arrives: what was handed out and what is still to come are the lines of the uncut stream.
      There is always room to read more, so that a modem that does not pause is read to the end. */
  lemma {:induction false} DrainIsSplit(max: nat, buf: string, chunks: seq<string>)
    requires 0 < max && EolFree(buf) && LinesFit(max, Flatten(chunks), buf)
    ensures |buf| <= max
    ensures var r := Drain(max, buf, chunks);
            && ThenComes(Split(Flatten(chunks), buf), r.0, Split(Flatten(r.2), r.1))
            && |r.1| <= max && EolFree(r.1)
            && (Gapless(chunks) ==> r.2 == [])
    decreases BytesLeft(chunks)
  {
    FitsNow(max, Flatten(chunks), buf);
    var next := NextRead(chunks, 2 * max - |buf|);
    ReadTakesFront(chunks, 2 * max - |buf|);
    hide Split, Consume, LinesFit, EolFree, Gapless, NextRead, Flatten, ThenComes;
    var all := Split(Flatten(chunks), buf);
    if next.0 == [] {
      assert [] + Flatten(next.1) == Flatten(next.1);
      NothingThenAll(all);
    } else {
      var now := Consume(max, buf + next.0);
      ReadIsSplit(max, buf, next.0, Flatten(next.1));
      DrainIsSplit(max, now.1, next.1);
      var r := Drain(max, now.1, next.1);
      ThenComesMore(all, now.0, Split(Flatten(next.1), now.1), r.0, Split(Flatten(r.2), r.1));
    }
  }

  lemma NothingThenAll(all: (seq<string>, string))
    ensures ThenComes(all, [], all)
  {
    assert [] + all.0 == all.0;
  }

  lemma FitsNow(max: nat, s: string, acc: string)
    requires LinesFit(max, s, acc)
    ensures |acc| <= max
  {
  }

  /** A line is handed out exactly if a line end was read. */
  lemma ConsumeWithoutEnd(max: nat, s: string)
    ensures Consume(max, s).0 == [] <==> EolFree(s)
  {
    LineLenIsMaximal(s);
    assert s[..|s|] == s;
  }

  lemma {:induction false} DrainWithoutEnd(max: nat, buf: string, chunks: seq<string>)
    requires 0 < max && EolFree(buf) && LinesFit(max, Flatten(chunks), buf) && Gapless(chunks)
    ensures |buf| <= max
    ensures Drain(max, buf, chunks).0 == [] <==> EolFree(Flatten(chunks))
    decreases BytesLeft(chunks)
  {
    FitsNow(max, Flatten(chunks), buf);
    var next := NextRead(chunks, 2 * max - |buf|);
    ReadTakesFront(chunks, 2 * max - |buf|);
    EolFreeConcat(next.0, Flatten(next.1));
    EolFreeConcat(buf, next.0);
    if next.0 != [] {
      var now := Consume(max, buf + next.0);
      ReadIsSplit(max, buf, next.0, Flatten(next.1));
      ConsumeWithoutEnd(max, buf + next.0);
      hide Consume, LinesFit, Gapless, NextRead, Flatten, ThenComes, EolFree;
      DrainWithoutEnd(max, now.1, next.1);
    }
  }

  lemma EolFreeConcat(a: string, b: string)
    ensures EolFree(a + b) <==> EolFree(a) && EolFree(b)
  {
    if EolFree(a + b) {
      assert forall i :: 0 <= i < |a| ==> a[i] == (a + b)[i];
      assert forall i :: 0 <= i < |b| ==> b[i] == (a + b)[|a| + i];
    }
  }

  /** For two ways of cutting the same stream into reads, the driver ends up in the same protocol
      state with the same settings, up to the note that the modem is powered down. */
  lemma CutsOnlyAffectPowerDown(max: nat, s: Status, es: seq<Entry>, buf: string,
                                cut1: seq<string>, cut2: seq<string>)
    requires 0 < max && EolFree(buf) && LinesFit(max, Flatten(cut1), buf)
    requires Flatten(cut1) == Flatten(cut2) && Gapless(cut1) && Gapless(cut2)
    ensures |buf| <= max
    ensures var a := ApplyLines(s, es, Drain(max, buf, cut1).0);
            var b := ApplyLines(s, es, Drain(max, buf, cut2).0);
            AgreeButPower(a.0, b.0) && a.1 == b.1 && Drain(max, buf, cut1).1 == Drain(max, buf, cut2).1
  {
    FitsNow(max, Flatten(cut1), buf);
    var lines1, lines2 := Drain(max, buf, cut1).0, Drain(max, buf, cut2).0;
    DrainWithoutEnd(max, buf, cut1);
    DrainWithoutEnd(max, buf, cut2);
    MarkedCutsAgree(max, s, es, buf, cut1, cut2);
    hide Drain, Flatten, ApplyLines, AgreeButPower, EolFree, LinesFit, Gapless;
    if lines1 != [] {
      LinesMark(s, es, lines1);
      LinesMark(s, es, lines2);
    } else {
      SameAgrees(ApplyLines(s, es, []).0);
    }
  }

  lemma SameAgrees(s: Status)
    ensures AgreeButPower(s, s)
  {
  }

  lemma MarkedCutsAgree(max: nat, s: Status, es: seq<Entry>, buf: string, cut1: seq<string>, cut2: seq<string>)
    requires 0 < max && EolFree(buf) && LinesFit(max, Flatten(cut1), buf)
    requires Flatten(cut1) == Flatten(cut2) && Gapless(cut1) && Gapless(cut2)
    ensures |buf| <= max
    ensures var a := ApplyLines(Marked(s), es, Drain(max, buf, cut1).0);
            var b := ApplyLines(Marked(s), es, Drain(max, buf, cut2).0);
            AgreeButPower(a.0, b.0) && a.1 == b.1 && Drain(max, buf, cut1).1 == Drain(max, buf, cut2).1
  {
    FitsNow(max, Flatten(cut1), buf);
    var d1, d2, t := Drain(max, buf, cut1), Drain(max, buf, cut2), Marked(s);
    DrainIsSplit(max, buf, cut1);
    DrainIsSplit(max, buf, cut2);
    assert forall r, acc :: r == "" ==> Split(r, acc) == ([], acc);
    hide Drain, Split, Flatten, ApplyLines, AgreeButPower, CallKnown;
    assert NonEmpty(d1.0) + [] == NonEmpty(d1.0) && NonEmpty(d2.0) + [] == NonEmpty(d2.0);
    SameAgrees(t);
    NonEmptyLinesSuffice(t, t, es, d1.0);
    NonEmptyLinesSuffice(t, t, es, d2.0);
    Agreement(ApplyLines(t, es, d1.0).0, ApplyLines(t, es, NonEmpty(d1.0)).0, ApplyLines(t, es, d2.0).0);
  }

  lemma Agreement(a: Status, b: Status, c: Status)
    requires AgreeButPower(a, b) && AgreeButPower(c, b)
    ensures AgreeButPower(a, c)
  {
  }

  /** The note that the modem is powered down holds exactly if POWERED DOWN is the last line that
      was handed out, empty ones included. */
  lemma {:induction false} PowerDownIsTheLastLine(s: Status, es: seq<Entry>, lines: seq<string>)
    requires lines != []
    ensures ApplyLines(s, es, lines).0.link.poweredDown <==> lines[|lines| - 1] == "POWERED DOWN"
    decreases |lines|
  {
    hide Changes, EntriesAfter, ListedCall, ReportedSetting, ValueOf;
    var m := Parse(lines[0]);
    var s', es' := Apply(s, es, m), EntriesAfter(es, s.cmd.pending, m);
    if |lines| > 1 {
      PowerDownIsTheLastLine(s', es', lines[1..]);
    } else {
      assert ApplyLines(s', es', lines[1..]) == (s', es');
    }
  }

  /** A line that is read together with its line end is handed out alone; an empty line follows
      if the rest of the line end comes with the next read. */
  lemma SplitLineEndAddsEmptyLine(max: nat, line: string)
    requires EolFree(line)
    ensures Feed(max, "", [line + "\r\n"]).0 == [line]
    ensures Feed(max, "", [line + "\r", "\n"]).0 == [line, ""]
  {
    ConsumeOneLine(max, line, "\r\n");
    FeedOne(max, line + "\r\n", line);
    FeedTwo(max, line);
  }

  lemma FeedTwo(max: nat, line: string)
    requires EolFree(line)
    ensures Feed(max, "", [line + "\r", "\n"]).0 == [line, ""]
  {
    var first := line + "\r";
    ConsumeOneLine(max, line, "\r");
    ConsumeOneLine(max, "", "\n");
    assert "" + "\n" == "\n";
    hide Consume;
    FeedOne(max, "\n", "");
    assert "" + first == first;
    assert [first, "\n"][1..] == ["\n"];
    assert Feed(max, "", [first, "\n"]).0 == [line] + Feed(max, "", ["\n"]).0;
  }

  lemma FeedOne(max: nat, chunk: string, line: string)
    requires Consume(max, chunk) == ([line], "")
    ensures Feed(max, "", [chunk]) == ([line], "")
  {
    assert "" + chunk == chunk;
    assert [chunk][1..] == [] && [line] + [] == [line];
  }

  /** Reading the line end of POWERED DOWN in two parts makes the driver miss it. */
  lemma SplitLineEndHidesPowerDown(s: Status, es: seq<Entry>, max: nat)
    ensures ApplyLines(s, es, Feed(max, "", ["POWERED DOWN" + "\r\n"]).0).0.link.poweredDown
    ensures !ApplyLines(s, es, Feed(max, "", ["POWERED DOWN" + "\r", "\n"]).0).0.link.poweredDown
  {
    hide Feed, ApplyLines;
    var line := "POWERED DOWN";
    SplitLineEndAddsEmptyLine(max, line);
    PowerDownIsTheLastLine(s, es, [line]);
    PowerDownIsTheLastLine(s, es, [line, ""]);
  }

  lemma ConsumeOneLine(max: nat, line: string, eols: string)
    requires EolFree(line) && eols != [] && forall i :: 0 <= i < |eols| ==> IsEol(eols[i])
    ensures Consume(max, line + eols) == ([line], "")
  {
    LineLenOf(line, eols);
    var s := line + eols;
    assert s[|line|..] == eols && s[..|line|] == line;
    EolLenOf(eols);
    assert s[|line| + |eols|..] == "";
    assert Consume(max, "") == ([], "");
    assert [line] + [] == [line];
  }

  lemma {:induction false} LineLenOf(line: string, eols: string)
    requires EolFree(line) && eols != [] && IsEol(eols[0])
    ensures LineLen(line + eols) == |line|
  {
    if line == [] {
      assert line + eols == eols;
    } else {
      assert (line + eols)[1..] == line[1..] + eols;
      assert forall i :: 0 <= i < |line[1..]| ==> line[1..][i] == line[i + 1];
      LineLenOf(line[1..], eols);
    }
  }

  lemma {:induction false} EolLenOf(eols: string)
    requires forall i :: 0 <= i < |eols| ==> IsEol(eols[i])
    ensures EolLen(eols) == |eols|
  {
    if eols != [] { EolLenOf(eols[1..]); }
  }

  // ---- a poll between the two halves of a line end ----

  /** The status once the call list is to be polled. */
  function Polled(s: Status): Status { s.(calls := s.calls.(upToDate := false)) }

  /** With a known call, a request to poll the call list is lost if the second half of the last line
      end is read after it: the list, though stale, counts as valid again. */
  lemma LateLineEndLosesPoll(max: nat, s: Status, es: seq<Entry>, line: string)
    requires EolFree(line) && ApplyLines(s, es, [line]).0.calls.current.Some?
    ensures var whole := ApplyLines(s, es, Feed(max, "", [line + "\r\n"]).0);
            var half := ApplyLines(s, es, Feed(max, "", [line + "\r"]).0);
            && half == whole
            && !ApplyLines(Polled(whole.0), whole.1, Feed(max, "", []).0).0.calls.upToDate
            && ApplyLines(Polled(half.0), half.1, Feed(max, "", ["\n"]).0).0.calls.upToDate
  {
    ConsumeOneLine(max, line, "\r\n");
    ConsumeOneLine(max, line, "\r");
    ConsumeOneLine(max, "", "\n");
    assert "" + "\n" == "\n";
    FeedOne(max, line + "\r\n", line);
    FeedOne(max, line + "\r", line);
    FeedOne(max, "\n", "");
    var half := ApplyLines(s, es, [line]);
    EmptyLineAfterPoll(half.0, half.1);
  }

  lemma EmptyLineAfterPoll(s: Status, es: seq<Entry>)
    requires s.calls.current.Some?
    ensures !ApplyLines(Polled(s), es, []).0.calls.upToDate && ApplyLines(Polled(s), es, [""]).0.calls.upToDate
  {
    var lines := [""];
    assert lines[1..] == [];
    EmptyLineMarks(Polled(s), es);
    hide Apply, Parse, EntriesAfter;
  }
}
