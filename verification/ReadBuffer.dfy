/** The byte buffer that splits the modem's output into lines
    (src/driver/modem/at_protocol/read_buffer.h). */
module ReadBuffers {

  predicate IsEol(c: char) { c == '\r' || c == '\n' }

  predicate EolFree(s: string) { forall i :: 0 <= i < |s| ==> !IsEol(s[i]) }

  // ---- what the two scanning loops and the consume loop compute ----

  /** Number of leading characters up to the first line end. */
  function LineLen(s: string): (n: nat)
    ensures n <= |s| && (n < |s| ==> IsEol(s[n]))
  {
    if s == [] || IsEol(s[0]) then 0 else 1 + LineLen(s[1..])
  }

  /** Number of leading line-end characters. */
  function EolLen(s: string): (n: nat)
    ensures n <= |s| && (s != [] && IsEol(s[0]) ==> 0 < n)
  {
    if s == [] || !IsEol(s[0]) then 0 else 1 + EolLen(s[1..])
  }

  /** The lines handed out for the buffer content `s`, and what stays in the buffer. */
  function Consume(max: nat, s: string): (r: (seq<string>, string))
    ensures |r.1| <= max
    decreases |s|
  {
    var n := LineLen(s);
    if n == |s| then ([], if n > max then [] else s)
    else
      var next := Consume(max, s[n + EolLen(s[n..])..]);
      ([s[..n]] + next.0, next.1)
  }

  /** `lines` were handed out already, `now` is still to come, together they are `all`. */
  predicate Extends(lines: seq<string>, now: (seq<string>, string), all: (seq<string>, string)) {
    lines + now.0 == all.0 && now.1 == all.1
  }

  /** One iteration of the consume loop takes the first line off `s` if it is complete. */
  predicate TakesLine(max: nat, s: string, complete: bool, line: string, s': string) {
    var n := LineLen(s);
    if n == |s| then !complete && s' == (if n > max then [] else s)
    else complete && line == s[..n] && s' == s[n + EolLen(s[n..])..]
  }

  lemma NothingTakenYet(all: (seq<string>, string))
    ensures Extends([], all, all)
  {
    assert [] + all.0 == all.0;
  }

  lemma ConsumeExtends(max: nat, lines: seq<string>, s: string, all: (seq<string>, string),
                       complete: bool, line: string, s': string)
    requires Extends(lines, Consume(max, s), all) && TakesLine(max, s, complete, line, s')
    ensures complete ==> |s'| < |s| && Extends(lines + [line], Consume(max, s'), all)
    ensures !complete ==> all == (lines, s')
  {
    if complete {
      var next := Consume(max, s');
      assert (lines + [line]) + next.0 == lines + ([line] + next.0);
    } else {
      assert lines + [] == lines;
    }
  }

  /** The bytes that one read of at most `len` bytes obtains. An empty chunk at the head
      stands for a moment at which the modem has nothing to say. */
  function NextRead(chunks: seq<string>, len: nat): (r: (string, seq<string>))
    ensures |r.0| <= len
    ensures BytesLeft(r.1) <= BytesLeft(chunks) && (r.0 != [] ==> BytesLeft(r.1) < BytesLeft(chunks))
  {
    if chunks == [] then ([], [])
    else if |chunks[0]| <= len then (chunks[0], chunks[1..])
    else (chunks[0][..len], [chunks[0][len..]] + chunks[1..])
  }

  /** Number of bytes that the modem still holds. */
  function BytesLeft(chunks: seq<string>): nat {
    if chunks == [] then 0 else |chunks[0]| + BytesLeft(chunks[1..])
  }

  /** One fill followed by one consumption of lines. */
  predicate Round(max: nat, buf: string, chunks: seq<string>,
                  more: bool, lines: seq<string>, buf': string, chunks': seq<string>)
    requires |buf| <= 2 * max
  {
    var next := NextRead(chunks, 2 * max - |buf|);
    && chunks' == next.1
    && more == (next.0 != [])
    && (lines, buf') == (if more then Consume(max, buf + next.0) else ([], buf))
  }

  // ---- the classes ----

  class ResponseChannel {
    var chunks: seq<string>

    constructor (chunks: seq<string>)
      ensures this.chunks == chunks
    {
      this.chunks := chunks;
    }

    method ReadFromModem(buf: array<char>, offset: nat, len: nat) returns (n: nat)
      requires offset + len <= buf.Length
      modifies this, buf
      ensures chunks == NextRead(old(chunks), len).1
      ensures n == |NextRead(old(chunks), len).0|
      ensures buf[..] == old(buf[..offset]) + NextRead(old(chunks), len).0 + old(buf[offset + n..])
    {
      if chunks == [] {
        return 0;
      }
      var head := chunks[0];
      n := if |head| <= len then |head| else len;
      chunks := if |head| <= len then chunks[1..] else [head[len..]] + chunks[1..];
      forall i | 0 <= i < n {
        buf[offset + i] := head[i];
      }
    }
  }

  datatype FillResult = Data | Done

  class ReadBuffer {
    const maxLineLen: nat
    const buffer: array<char>
    var payloadBytes: nat

    ghost predicate Valid()
      reads this
    {
      0 < maxLineLen && buffer.Length == 2 * maxLineLen && payloadBytes <= buffer.Length
    }

    function Content(): string
      requires payloadBytes <= buffer.Length
      reads this, buffer
    {
      buffer[..payloadBytes]
    }

    constructor (maxLineLen: nat)
      requires 0 < maxLineLen
      ensures Valid() && fresh(buffer) && Content() == [] && this.maxLineLen == maxLineLen
    {
      this.maxLineLen := maxLineLen;
      buffer := new char[2 * maxLineLen](_ => '\0');
      payloadBytes := 0;
    }

    method Fill(modem: ResponseChannel) returns (r: FillResult)
      requires Valid()
      modifies this, buffer, modem
      ensures Valid()
      ensures var next := NextRead(old(modem.chunks), 2 * maxLineLen - old(payloadBytes));
              && modem.chunks == next.1
              && Content() == old(Content()) + next.0
              && (r == Done <==> next.0 == [])
    {
      var appended := modem.ReadFromModem(buffer, payloadBytes, buffer.Length - payloadBytes);
      if appended == 0 {
        return Done;
      }
      payloadBytes := payloadBytes + appended;
      return Data;
    }

    /** One round of the driver's reading loop: fill the buffer, then consume the lines. */
    method Read(modem: ResponseChannel) returns (more: bool, lines: seq<string>)
      requires Valid()
      modifies this, buffer, modem
      ensures Valid()
      ensures Round(maxLineLen, old(Content()), old(modem.chunks), more, lines, Content(), modem.chunks)
    {
      assert old(Content()) + [] == old(Content());
      var filled := Fill(modem);
      more := filled == Data;
      lines := [];
      if more {
        lines := ConsumeLines();
      }
    }

    /** Hand out every complete line. An unfinished line stays in the buffer unless it exceeds
        the maximum line length, in which case it is dropped. */
    method ConsumeLines() returns (lines: seq<string>)
      requires Valid()
      modifies this, buffer
      ensures Valid()
      ensures (lines, Content()) == Consume(maxLineLen, old(Content()))
    {
      hide Consume, TakesLine, Extends;
      lines := [];
      ghost var s := Content();
      ghost var all := Consume(maxLineLen, s);
      NothingTakenYet(all);
      var more := true;
      while more
        invariant Valid() && s == Content()
        invariant if more then Extends(lines, Consume(maxLineLen, s), all) else all == (lines, s)
        decreases more, |s|
      {
        var line;
        more, line := NextLine();
        ConsumeExtends(maxLineLen, lines, s, all, more, line, Content());
        s := Content();
        if more {
          lines := lines + [line];
        }
      }
    }

    /** Hand out the first line if it is complete. */
    method NextLine() returns (complete: bool, line: string)
      requires Valid()
      modifies this, buffer
      ensures Valid()
      ensures TakesLine(maxLineLen, old(Content()), complete, line, Content())
    {
      var lineLen := ScanForEndOfLine();
      line := buffer[..lineLen];
      complete := lineLen < payloadBytes;
      if complete {
        var eolChars := EndOfLineChars(lineLen);
        DropFront(lineLen + eolChars);
      } else if payloadBytes > maxLineLen {
        payloadBytes := 0;
      }
    }

    /** Move the bytes behind the first `n` to the front of the buffer. */
    method DropFront(n: nat)
      requires Valid() && n <= payloadBytes
      modifies this, buffer
      ensures Valid() && payloadBytes == old(payloadBytes) - n
      ensures Content() == old(Content())[n..]
    {
      forall i | 0 <= i < payloadBytes - n {
        buffer[i] := buffer[n + i];
      }
      payloadBytes := payloadBytes - n;
    }

    method EndOfLineChars(start: nat) returns (n: nat)
      requires Valid() && start <= payloadBytes
      ensures n == EolLen(Content()[start..])
    {
      n := 0;
      var s := Content()[start..];
      while n < |s| && IsEol(s[n])
        invariant n <= |s|
        invariant EolLen(s) == n + EolLen(s[n..])
      {
        assert s[n..][1..] == s[n + 1..];
        n := n + 1;
      }
    }

    method ScanForEndOfLine() returns (n: nat)
      requires Valid()
      ensures n == LineLen(Content())
    {
      n := 0;
      while n < payloadBytes && !IsEol(buffer[n])
        invariant n <= payloadBytes
        invariant LineLen(Content()) == n + LineLen(Content()[n..])
      {
        assert Content()[n..][1..] == Content()[n + 1..];
        n := n + 1;
      }
    }
  }

  // ---- the lines do not depend on how the stream is cut into reads ----

  /** Reference splitter: one character at a time, `acc` is the unfinished line. */
  function Split(s: string, acc: string): (seq<string>, string) {
    if s == [] then ([], acc)
    else if IsEol(s[0]) then
      var next := Split(s[1..], []);
      ((if acc == [] then [] else [acc]) + next.0, next.1)
    else Split(s[1..], acc + [s[0]])
  }

  /** No line of the stream, finished or not, is longer than `max`. */
  predicate LinesFit(max: nat, s: string, acc: string) {
    |acc| <= max &&
    (s != [] ==> LinesFit(max, s[1..], if IsEol(s[0]) then [] else acc + [s[0]]))
  }

  function NonEmpty(lines: seq<string>): seq<string> {
    if lines == [] then [] else (if lines[0] == [] then [] else [lines[0]]) + NonEmpty(lines[1..])
  }

  function Flatten(chunks: seq<string>): string {
    if chunks == [] then [] else chunks[0] + Flatten(chunks[1..])
  }

  /** Alternate between appending a chunk and consuming the complete lines. */
  function Feed(max: nat, buf: string, chunks: seq<string>): (seq<string>, string)
    decreases |chunks|
  {
    if chunks == [] then ([], buf)
    else
      var now := Consume(max, buf + chunks[0]);
      var later := Feed(max, now.1, chunks[1..]);
      (now.0 + later.0, later.1)
  }

  lemma {:induction false} NonEmptyConcat(a: seq<string>, b: seq<string>)
    ensures NonEmpty(a + b) == NonEmpty(a) + NonEmpty(b)
  {
    if a == [] {
      assert a + b == b;
    } else {
      assert (a + b)[1..] == a[1..] + b;
      NonEmptyConcat(a[1..], b);
    }
  }

  lemma {:induction false} SplitConcat(a: string, b: string, acc: string)
    ensures var first := Split(a, acc);
            var second := Split(b, first.1);
            Split(a + b, acc) == (first.0 + second.0, second.1)
  {
    if a == [] {
      assert a + b == b;
      assert [] + Split(b, acc).0 == Split(b, acc).0;
    } else {
      assert (a + b)[1..] == a[1..] + b;
      var acc' := if IsEol(a[0]) then [] else acc + [a[0]];
      SplitConcat(a[1..], b, acc');
      var head := if !IsEol(a[0]) || acc == [] then [] else [acc];
      var first := Split(a[1..], acc');
      var second := Split(b, first.1);
      assert head + (first.0 + second.0) == (head + first.0) + second.0;
    }
  }

  lemma {:induction false} SplitEolFree(s: string, acc: string)
    requires EolFree(s)
    ensures Split(s, acc) == ([], acc + s)
  {
    if s != [] {
      assert forall i :: 0 <= i < |s[1..]| ==> s[1..][i] == s[i + 1];
      SplitEolFree(s[1..], acc + [s[0]]);
      assert acc + [s[0]] + s[1..] == acc + s;
    } else {
      assert acc + s == acc;
    }
  }

  lemma {:induction false} SplitEols(s: string, acc: string)
    requires s != [] && forall i :: 0 <= i < |s| ==> IsEol(s[i])
    ensures Split(s, acc) == (if acc == [] then [] else [acc], [])
  {
    var head := if acc == [] then [] else [acc];
    assert head + [] == head;
    if |s| > 1 {
      assert forall i :: 0 <= i < |s[1..]| ==> s[1..][i] == s[i + 1];
      SplitEols(s[1..], []);
    } else {
      assert Split(s[1..], []) == ([], []);
    }
  }

  lemma SplitOneLine(line: string, eols: string, rest: string)
    requires EolFree(line) && eols != [] && forall i :: 0 <= i < |eols| ==> IsEol(eols[i])
    ensures Split(line + (eols + rest), [])
         == ((if line == [] then [] else [line]) + Split(rest, []).0, Split(rest, []).1)
  {
    SplitEolFree(line, []);
    assert [] + line == line;
    SplitConcat(line, eols + rest, []);
    SplitEols(eols, line);
    SplitConcat(eols, rest, line);
    var lines := (if line == [] then [] else [line]) + Split(rest, []).0;
    assert [] + lines == lines;
  }

  lemma {:induction false} LineLenIsMaximal(s: string)
    ensures EolFree(s[..LineLen(s)])
  {
    var n := LineLen(s);
    if n > 0 {
      LineLenIsMaximal(s[1..]);
      assert s[..n] == [s[0]] + s[1..][..n - 1];
    }
  }

  lemma {:induction false} EolLenIsMaximal(s: string)
    ensures forall i :: 0 <= i < EolLen(s) ==> IsEol(s[i])
  {
    if s != [] && IsEol(s[0]) {
      EolLenIsMaximal(s[1..]);
      forall i | 0 <= i < EolLen(s) ensures IsEol(s[i]) {
        if i > 0 { assert s[i] == s[1..][i - 1]; }
      }
    }
  }

  /** What stays in the buffer has no line end: the buffer never holds a complete line back. */
  lemma {:induction false} ConsumeLeavesNoLine(max: nat, s: string)
    ensures EolFree(Consume(max, s).1)
    decreases |s|
  {
    var n := LineLen(s);
    if n == |s| {
      LineLenIsMaximal(s);
      assert s[..n] == s;
    } else {
      ConsumeLeavesNoLine(max, s[n + EolLen(s[n..])..]);
    }
  }

  /** What the consume loop hands out are the lines of the reference splitter, apart from empty
      ones, and the buffer keeps the reference splitter's unfinished line if it fits. */
  lemma {:induction false} ConsumeIsSplit(max: nat, s: string)
    ensures NonEmpty(Consume(max, s).0) == Split(s, []).0
    ensures Consume(max, s).1 == if |Split(s, []).1| <= max then Split(s, []).1 else []
    decreases |s|
  {
    if LineLen(s) == |s| {
      LineLenIsMaximal(s);
      assert s[..|s|] == s;
      SplitEolFree(s, []);
      assert [] + s == s;
    } else {
      var line, eols, rest := FirstLineOf(s);
      ConsumeIsSplit(max, rest);
      assert Consume(max, s) == ([line] + Consume(max, rest).0, Consume(max, rest).1);
      hide LineLen, EolLen, EolFree, Split, Consume, IsEol;
      SplitOneLine(line, eols, rest);
      NonEmptyConcat([line], Consume(max, rest).0);
    }
  }

  lemma FirstLineOf(s: string) returns (line: string, eols: string, rest: string)
    requires LineLen(s) < |s|
    ensures s == line + (eols + rest) && |rest| < |s|
    ensures EolFree(line) && eols != [] && forall i :: 0 <= i < |eols| ==> IsEol(eols[i])
    ensures line == s[..LineLen(s)] && rest == s[LineLen(s) + EolLen(s[LineLen(s)..])..]
  {
    var n := LineLen(s);
    var m := EolLen(s[n..]);
    LineLenIsMaximal(s);
    EolLenIsMaximal(s[n..]);
    line, eols, rest := s[..n], s[n..][..m], s[n + m..];
  }

  lemma {:induction false} LinesFitConcat(max: nat, a: string, b: string, acc: string)
    requires LinesFit(max, a + b, acc)
    ensures LinesFit(max, b, Split(a, acc).1) && |Split(a, acc).1| <= max
  {
    if a == [] {
      assert a + b == b;
    } else {
      assert (a + b)[1..] == a[1..] + b;
      LinesFitConcat(max, a[1..], b, if IsEol(a[0]) then [] else acc + [a[0]]);
    }
  }

  /** For every stream whose lines fit and every way of cutting it into reads, the non-empty
      lines handed out are those of the uncut stream, and the unfinished line is kept. */
  lemma {:induction false} CuttingDoesNotMatter(max: nat, buf: string, chunks: seq<string>)
    requires EolFree(buf) && LinesFit(max, Flatten(chunks), buf)
    ensures NonEmpty(Feed(max, buf, chunks).0) == Split(Flatten(chunks), buf).0
    ensures Feed(max, buf, chunks).1 == Split(Flatten(chunks), buf).1
    decreases |chunks|
  {
    if chunks != [] {
      var c, rest := chunks[0], Flatten(chunks[1..]);
      SplitEolFree(buf, []);
      assert [] + buf == buf && [] + Split(c, buf).0 == Split(c, buf).0;
      ConsumeLeavesNoLine(max, buf + c);
      hide Split, Consume, LinesFit, EolFree, IsEol;
      SplitConcat(buf, c, []);
      ConsumeIsSplit(max, buf + c);
      LinesFitConcat(max, c, rest, buf);
      SplitConcat(c, rest, buf);
      var now := Consume(max, buf + c);
      CuttingDoesNotMatter(max, now.1, chunks[1..]);
      NonEmptyConcat(now.0, Feed(max, now.1, chunks[1..]).0);
    }
  }

  // ---- lines in terms of characters ----

  /** No carriage return and no line feed. */
  predicate OneLine(s: string) { forall i :: 0 <= i < |s| ==> s[i] != '\r' && s[i] != '\n' }

  lemma {:induction false} TextLen(line: string, rest: string)
    requires OneLine(line) && (rest == [] || rest[0] == '\r' || rest[0] == '\n')
    ensures LineLen(line + rest) == |line|
  {
    if line == [] {
      assert line + rest == rest;
    } else {
      assert (line + rest)[1..] == line[1..] + rest;
      TextLen(line[1..], rest);
    }
  }

  lemma EndLen(eol: string, rest: string)
    requires eol == "\r\n" || eol == "\r" || eol == "\n"
    requires rest == [] || (rest[0] != '\r' && rest[0] != '\n')
    ensures EolLen(eol + rest) == |eol|
  {
    assert (eol + rest)[1..] == eol[1..] + rest;
    assert EolLen(rest) == 0;
    if |eol| == 2 {
      assert eol[1..] == "\n" && (eol[1..] + rest)[1..] == rest;
      assert EolLen(eol[1..] + rest) == 1;
    }
  }

  /** A text of any characters other than CR and LF, followed by CR, LF, or both, is handed out as it
      is, whatever its length. */
  lemma TextIsHandedOut(max: nat, line: string, eol: string, rest: string)
    requires OneLine(line) && (eol == "\r\n" || eol == "\r" || eol == "\n")
    requires rest == [] || (rest[0] != '\r' && rest[0] != '\n')
    ensures Consume(max, line + (eol + rest)) == ([line] + Consume(max, rest).0, Consume(max, rest).1)
  {
    var s := line + (eol + rest);
    TextLen(line, eol + rest);
    assert s[..|line|] == line && s[|line|..] == eol + rest;
    EndLen(eol, rest);
    assert s[|line| + |eol|..] == rest;
  }

  /** Without CR and LF nothing is handed out, and the text is kept if it fits and dropped otherwise. */
  lemma UnfinishedTextIsKept(max: nat, line: string)
    requires OneLine(line)
    ensures Consume(max, line) == ([], if |line| <= max then line else [])
  {
    TextLen(line, []);
    assert line + [] == line;
  }
}
