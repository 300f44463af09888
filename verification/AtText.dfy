/** Command texts, line matching and comma-separated elements
    (src/driver/modem/at_protocol/types.h and line.h).

    Genode's `Token` scanner lives in the Genode base library and is not part of this
    repository; `TokenKind` and `TokenLen` give the scanner that the policy
    `Scanner_policy_identifier_with_underline` selects. */
module AtText {
  import opened Options

  const AT_CHECK_READY := "AT"
  const AT_REQUEST_CALL_LIST := "AT+CLCC"
  const AT_HANG_UP := "ATH"
  const AT_ACCEPT_CALL := "ATA"
  const AT_POWER_DOWN := "AT+QPOWD"
  const AT_DISABLE_ECHO := "ATE0"
  const AT_QCFG_PREFIX := "AT+QCFG="
  const AT_REBOOT := "AT+CFUN=1,1"
  const CME_ERROR := "+CME ERROR:"
  const QCFG_RESPONSE := "+QCFG: "

  /** The part of a character range before the first NUL. */
  function CString(s: string): string {
    if s == [] || s[0] == '\0' then [] else [s[0]] + CString(s[1..])
  }

  /** The text after `prefix` if the line starts with it. */
  function ValueOf(line: string, prefix: string): Option<string> {
    if prefix <= line then Some(CString(line[|prefix|..])) else None
  }

  // ---- token scanner ----

  datatype TokenKind = SingleChar | Number | Ident | StringLiteral | Whitespace | End

  predicate IsDigit(c: char) { '0' <= c <= '9' }

  predicate IsIdentStart(c: char) { 'a' <= c <= 'z' || 'A' <= c <= 'Z' || c == '_' }

  predicate IsIdentChar(c: char) { IsIdentStart(c) || IsDigit(c) }

  predicate IsWhitespace(c: char) { c == ' ' || c == '\t' || c == '\n' }

  /** Length of the leading run of characters that satisfy `p`. */
  function RunLen(s: string, p: char -> bool): (n: nat)
    ensures n <= |s|
  {
    if s == [] || !p(s[0]) then 0 else 1 + RunLen(s[1..], p)
  }

  /** Length of the quoted string that starts at `s[i]`'s opening quote, 0 if it is never
      closed. A quote counts as closing unless a backslash stands before it. */
  function QuotedLen(s: string, i: nat): (n: nat)
    ensures n == 0 || i + 2 <= n <= |s|
    decreases |s| - i
  {
    if i + 1 >= |s| || s[i] == '\0' then 0
    else if s[i] != '\\' && s[i + 1] == '\"' then i + 2
    else QuotedLen(s, i + 1)
  }

  function KindOf(s: string): TokenKind {
    if s == [] || s[0] == '\0' then End
    else if IsIdentStart(s[0]) then Ident
    else if IsDigit(s[0]) then Number
    else if IsWhitespace(s[0]) then Whitespace
    else if s[0] == '\"' then (if QuotedLen(s, 0) > 0 then StringLiteral else End)
    else SingleChar
  }

  function TokenLen(s: string): (n: nat)
    ensures n <= |s|
    ensures KindOf(s) != End ==> 0 < n
    ensures KindOf(s) == StringLiteral ==> 2 <= n
  {
    match KindOf(s)
    case End => 0
    case SingleChar => 1
    case StringLiteral => QuotedLen(s, 0)
    case Number => RunLen(s, IsDigit)
    case Whitespace => RunLen(s, IsWhitespace)
    case Ident => RunLen(s, IsIdentChar)
  }

  /** The first number or quoted string of `s` that has exactly `idx - commas` commas before
      it. `None` stands for the default-constructed string, which has no terminator. */
  function CommaElement(idx: nat, s: string, commas: nat): Option<string>
    decreases |s|
  {
    var rest := s[TokenLen(s)..];
    match KindOf(s)
    case End => None
    case SingleChar => CommaElement(idx, rest, if s[0] == ',' then commas + 1 else commas)
    case Number => if idx == commas then Some(s[..TokenLen(s)]) else CommaElement(idx, rest, commas)
    case StringLiteral =>
      if idx == commas then Some(s[1..TokenLen(s) - 1]) else CommaElement(idx, rest, commas)
    case _ => CommaElement(idx, rest, commas)
  }

  /** The scanning loop of `comma_separated_element`. */
  method CommaSeparatedElement(idx: nat, s: string) returns (r: Option<string>)
    ensures r == CommaElement(idx, s, 0)
  {
    var commas := 0;
    var rest := s;
    while KindOf(rest) != End
      invariant CommaElement(idx, s, 0) == CommaElement(idx, rest, commas)
      decreases |rest|
    {
      var kind, len := KindOf(rest), TokenLen(rest);
      if kind == SingleChar {
        if rest[0] == ',' {
          commas := commas + 1;
        }
      } else if idx == commas {
        if kind == Number {
          return Some(rest[..len]);
        }
        if kind == StringLiteral {
          return Some(rest[1..len - 1]);
        }
      }
      rest := rest[len..];
    }
    return None;
  }

  // ---- texts of the QCFG commands and responses ----

  function Quoted(name: string): string { "\"" + name + "\"" }

  function QueryText(name: string): string { AT_QCFG_PREFIX + Quoted(name) }

  function AssignText(name: string, value: string): string {
    AT_QCFG_PREFIX + Quoted(name) + "," + value
  }

  function ResponseText(name: string, value: string): string {
    QCFG_RESPONSE + Quoted(name) + "," + value
  }

  /** No quote, backslash or NUL: the name survives being put between quotes. */
  predicate PlainText(s: string) {
    forall i :: 0 <= i < |s| ==> s[i] != '\"' && s[i] != '\\' && s[i] != '\0'
  }

  lemma {:induction false} QuotedLenOfPlain(name: string, rest: string, i: nat)
    requires PlainText(name) && i <= |name|
    ensures QuotedLen(Quoted(name) + rest, i) == |name| + 2
    decreases |name| - i
  {
    var s := Quoted(name) + rest;
    assert s[0] == '\"' && s[|name| + 1] == '\"';
    assert forall j :: 0 <= j < |name| ==> s[j + 1] == name[j];
    if i < |name| {
      assert s[i + 1] == name[i];
      QuotedLenOfPlain(name, rest, i + 1);
    }
  }

  /** A quoted plain name is read back as element 0, whatever follows it. */
  lemma QuotedNameIsElementZero(name: string, rest: string)
    requires PlainText(name)
    ensures CommaElement(0, Quoted(name) + rest, 0) == Some(name)
  {
    var s := Quoted(name) + rest;
    QuotedLenOfPlain(name, rest, 0);
    assert s[0] == '\"' && KindOf(s) == StringLiteral && TokenLen(s) == |name| + 2;
    assert s[1..|name| + 1] == name;
  }

  lemma {:induction false} ElementShift(idx: nat, s: string, commas: nat)
    ensures CommaElement(idx + 1, s, commas + 1) == CommaElement(idx, s, commas)
    decreases |s|
  {
    if KindOf(s) != End {
      var rest := s[TokenLen(s)..];
      ElementShift(idx, rest, commas);
      ElementShift(idx, rest, commas + 1);
    }
  }

  /** A query has no element 1, and an assignment has the value's own element 0 there. */
  lemma QcfgElementOne(name: string, value: string)
    requires PlainText(name)
    ensures CommaElement(1, Quoted(name), 0) == None
    ensures CommaElement(1, Quoted(name) + "," + value, 0) == CommaElement(0, value, 0)
  {
    QuotedLenOfPlain(name, "", 0);
    assert Quoted(name) + "" == Quoted(name);
    assert Quoted(name)[|name| + 2..] == "";
    var s := Quoted(name) + ("," + value);
    assert s == Quoted(name) + "," + value;
    QuotedLenOfPlain(name, "," + value, 0);
    assert KindOf(s) == StringLiteral;
    assert s[|name| + 2..] == "," + value;
    var t := "," + value;
    assert KindOf(t) == SingleChar && t[1..] == value;
    ElementShift(0, value, 0);
  }

  /** `PlainText` text is not cut short by a NUL. */
  lemma {:induction false} CStringOfPlain(s: string)
    requires forall i :: 0 <= i < |s| ==> s[i] != '\0'
    ensures CString(s) == s
  {
    if s != [] {
      CStringOfPlain(s[1..]);
      assert s == [s[0]] + s[1..];
    }
  }

  /** A NUL ends a text. */
  lemma {:induction false} CStringStops(s: string, rest: string)
    requires forall i :: 0 <= i < |s| ==> s[i] != '\0'
    ensures CString(s + ['\0'] + rest) == s
  {
    if s == [] {
      assert (s + ['\0'] + rest)[0] == '\0';
    } else {
      assert (s + ['\0'] + rest)[1..] == s[1..] + ['\0'] + rest;
      CStringStops(s[1..], rest);
    }
  }

  // ---- the scanner in terms of characters ----

  predicate IsWordChar(c: char) { 'a' <= c <= 'z' || 'A' <= c <= 'Z' || c == '_' || '0' <= c <= '9' }

  lemma {:induction false} RunOfPrefix(s: string, rest: string, p: char -> bool)
    requires (forall i :: 0 <= i < |s| ==> p(s[i])) && (rest == [] || !p(rest[0]))
    ensures RunLen(s + rest, p) == |s|
  {
    if s == [] {
      assert s + rest == rest;
    } else {
      assert (s + rest)[1..] == s[1..] + rest;
      RunOfPrefix(s[1..], rest, p);
    }
  }

  /** Words, which may hold digits but do not begin with one, are no elements. */
  lemma WordIsSkipped(idx: nat, word: string, rest: string, commas: nat)
    requires word != [] && !('0' <= word[0] <= '9') && forall i :: 0 <= i < |word| ==> IsWordChar(word[i])
    requires rest == [] || !IsWordChar(rest[0])
    ensures CommaElement(idx, word + rest, commas) == CommaElement(idx, rest, commas)
  {
    var s := word + rest;
    assert s[0] == word[0];
    RunOfPrefix(word, rest, IsIdentChar);
    assert KindOf(s) == Ident && TokenLen(s) == |word| && s[|word|..] == rest;
  }

  /** Blanks, tabs and line feeds are no elements either. */
  lemma BlanksAreSkipped(idx: nat, blanks: string, rest: string, commas: nat)
    requires blanks != [] && forall i :: 0 <= i < |blanks| ==> blanks[i] in {' ', '\t', '\n'}
    requires rest == [] || rest[0] !in {' ', '\t', '\n'}
    ensures CommaElement(idx, blanks + rest, commas) == CommaElement(idx, rest, commas)
  {
    var s := blanks + rest;
    assert s[0] == blanks[0];
    RunOfPrefix(blanks, rest, IsWhitespace);
    assert KindOf(s) == Whitespace && TokenLen(s) == |blanks| && s[|blanks|..] == rest;
  }

  lemma QuotedIsElement(s: string)
    requires s != [] && s[0] == '\"' && QuotedLen(s, 0) > 0
    ensures CommaElement(0, s, 0) == Some(s[1..QuotedLen(s, 0) - 1])
  {
    hide QuotedLen;
  }

  /** A quote behind a backslash does not end a quoted string. */
  lemma EscapedQuoteIsKept(a: string, b: string, rest: string)
    requires PlainText(a) && PlainText(b)
    ensures CommaElement(0, "\"" + (a + "\\\"" + b) + "\"" + rest, 0) == Some(a + "\\\"" + b)
  {
    hide QuotedLen, CommaElement, PlainText;
    var text := a + "\\\"" + b;
    var s := "\"" + text + "\"" + rest;
    EscapedQuotedLen(s, a, b, rest, 0);
    QuotedIsElement(s);
    assert s[1..|text| + 1] == text;
  }

  lemma {:induction false} EscapedQuotedLen(s: string, a: string, b: string, rest: string, i: nat)
    requires PlainText(a) && PlainText(b) && i <= |a| + 2 + |b|
    requires s == "\"" + (a + "\\\"" + b) + "\"" + rest
    ensures QuotedLen(s, i) == |a| + |b| + 4
    decreases |a| + 2 + |b| - i
  {
    assert s[0] == '\"' && s[|a| + 1] == '\\' && s[|a| + 2] == '\"' && s[|a| + |b| + 3] == '\"';
    assert forall j :: 0 <= j < |a| ==> s[j + 1] == a[j];
    assert forall j :: 0 <= j < |b| ==> s[|a| + 3 + j] == b[j];
    if i < |a| + 2 + |b| {
      assert i < |a| ==> s[i + 1] == a[i];
      assert i >= |a| + 2 ==> s[i + 1] == b[i - |a| - 2];
      EscapedQuotedLen(s, a, b, rest, i + 1);
    }
  }
}
