/** The key=value log line: how a value is quoted, and how to read a line back. */
module LogFormat {
  import opened Prelude

  function Replaced(x: char, c: char, sub: string): string {
    if x == c then sub else [x]
  }

  /** `text.replace(c, sub)` for a one-character needle. */
  function ReplaceAll(text: string, c: char, sub: string): string {
    if text == "" then "" else Replaced(text[0], c, sub) + ReplaceAll(text[1..], c, sub)
  }

  predicate NeedsQuote(text: string) {
    exists i :: 0 <= i < |text| && (text[i] == ' ' || text[i] == '"' || text[i] as int < 32)
  }

  /** The five chained replacements, in the order they are applied. */
  function Escaped(text: string): string {
    var t1 := ReplaceAll(text, '\\', "\\\\");
    var t2 := ReplaceAll(t1, '"', "\\\"");
    var t3 := ReplaceAll(t2, '\n', "\\n");
    var t4 := ReplaceAll(t3, '\r', "\\r");
    ReplaceAll(t4, '\t', "\\t")
  }

  function FormatValue(text: string): string {
    if NeedsQuote(text) then "\"" + Escaped(text) + "\"" else text
  }

  // ---------------------------------------------------------------------
  // The chain of replacements is one pass over the characters
  // ---------------------------------------------------------------------

  function EscapeChar(c: char): string {
    match c
    case '\\' => "\\\\"
    case '"' => "\\\""
    case '\n' => "\\n"
    case '\r' => "\\r"
    case '\t' => "\\t"
    case _ => [c]
  }

  function EscapeOnce(text: string): string {
    if text == "" then "" else EscapeChar(text[0]) + EscapeOnce(text[1..])
  }

  lemma {:induction false} ReplaceAllConcat(a: string, b: string, c: char, sub: string)
    ensures ReplaceAll(a + b, c, sub) == ReplaceAll(a, c, sub) + ReplaceAll(b, c, sub)
  {
    hide Replaced;
    if a == "" {
      assert a + b == b;
    } else {
      ReplaceAllConcat(a[1..], b, c, sub);
      assert (a + b)[1..] == a[1..] + b;
      ConcatAssociative(Replaced(a[0], c, sub), ReplaceAll(a[1..], c, sub), ReplaceAll(b, c, sub));
    }
  }

  lemma ConcatAssociative(a: string, b: string, c: string)
    ensures a + (b + c) == a + b + c
  {
  }

  lemma EscapedConcat(a: string, b: string)
    ensures Escaped(a + b) == Escaped(a) + Escaped(b)
  {
    ReplaceAllConcat(a, b, '\\', "\\\\");
    var a1, b1 := ReplaceAll(a, '\\', "\\\\"), ReplaceAll(b, '\\', "\\\\");
    ReplaceAllConcat(a1, b1, '"', "\\\"");
    var a2, b2 := ReplaceAll(a1, '"', "\\\""), ReplaceAll(b1, '"', "\\\"");
    ReplaceAllConcat(a2, b2, '\n', "\\n");
    var a3, b3 := ReplaceAll(a2, '\n', "\\n"), ReplaceAll(b2, '\n', "\\n");
    ReplaceAllConcat(a3, b3, '\r', "\\r");
    var a4, b4 := ReplaceAll(a3, '\r', "\\r"), ReplaceAll(b3, '\r', "\\r");
    ReplaceAllConcat(a4, b4, '\t', "\\t");
  }

  lemma ReplaceOne(x: char, c: char, sub: string)
    ensures ReplaceAll([x], c, sub) == if x == c then sub else [x]
  {
    assert [x][1..] == "";
  }

  lemma ReplaceTwo(x: char, y: char, c: char, sub: string)
    ensures ReplaceAll([x, y], c, sub) == (if x == c then sub else [x]) + (if y == c then sub else [y])
  {
    assert [x, y] == [x] + [y];
    ReplaceAllConcat([x], [y], c, sub);
    ReplaceOne(x, c, sub);
    ReplaceOne(y, c, sub);
  }

  lemma EscapedOneChar(x: char)
    ensures Escaped([x]) == EscapeChar(x)
  {
    ReplaceOne(x, '\\', "\\\\");
    ReplaceOne(x, '"', "\\\"");
    ReplaceOne(x, '\n', "\\n");
    ReplaceOne(x, '\r', "\\r");
    ReplaceOne(x, '\t', "\\t");
    if x in "\\\"\n\r\t" {
      var e := EscapeChar(x);
      ReplaceTwo(e[0], e[1], '"', "\\\"");
      ReplaceTwo(e[0], e[1], '\n', "\\n");
      ReplaceTwo(e[0], e[1], '\r', "\\r");
      ReplaceTwo(e[0], e[1], '\t', "\\t");
    }
  }

  /** Five passes over the text equal one pass over its characters. */
  lemma {:induction false} ChainIsSinglePass(text: string)
    ensures Escaped(text) == EscapeOnce(text)
  {
    if text != "" {
      assert text == [text[0]] + text[1..];
      EscapedConcat([text[0]], text[1..]);
      EscapedOneChar(text[0]);
      ChainIsSinglePass(text[1..]);
    }
  }

  /** A character is printed as itself, but for these five. */
  lemma EscapesExactly(c: char)
    ensures Escaped([c]) ==
      if c == 92 as char then [92 as char, 92 as char]
      else if c == 34 as char then [92 as char, 34 as char]
      else if c == 10 as char then [92 as char, 'n']
      else if c == 13 as char then [92 as char, 'r']
      else if c == 9 as char then [92 as char, 't']
      else [c]
  {
    EscapedOneChar(c);
  }

  /** A value is printed as it is exactly if it has no blank, no double quote and no control character;
      otherwise it stands between double quotes. */
  lemma QuotedExactly(text: string)
    ensures FormatValue(text) == text <==> forall c :: c in text ==> c as int > 32 && c as int != 34
    ensures FormatValue(text) == text || FormatValue(text) == [34 as char] + Escaped(text) + [34 as char]
  {
    if NeedsQuote(text) {
      var i :| 0 <= i < |text| && (text[i] == ' ' || text[i] == '"' || text[i] as int < 32);
      assert text[i] in text;
      ChainIsSinglePass(text);
      NoShorter(text);
    }
  }

  lemma {:induction false} NoShorter(text: string)
    ensures |EscapeOnce(text)| >= |text|
  {
    if text != "" {
      NoShorter(text[1..]);
    }
  }

  // ---------------------------------------------------------------------
  // Reading a value back
  // ---------------------------------------------------------------------

  function UnescapeChar(c: char): Option<char> {
    match c
    case '\\' => Some('\\')
    case '"' => Some('"')
    case 'n' => Some('\n')
    case 'r' => Some('\r')
    case 't' => Some('\t')
    case _ => None
  }

  /** Reads up to the closing quote; the result is the text and what follows the quote. */
  function ReadQuoted(s: string): Option<(string, string)> {
    if s == "" then None
    else if s[0] == '"' then Some(("", s[1..]))
    else if s[0] == '\\' then
      if |s| < 2 || UnescapeChar(s[1]) == None then None
      else match ReadQuoted(s[2..])
           case None => None
           case Some((t, rest)) => Some(([UnescapeChar(s[1]).value] + t, rest))
    else match ReadQuoted(s[1..])
         case None => None
         case Some((t, rest)) => Some(([s[0]] + t, rest))
  }

  /** Reads up to the next blank. */
  function ReadBare(s: string): (string, string) {
    if s == "" || s[0] == ' ' then ("", s)
    else var (t, rest) := ReadBare(s[1..]); ([s[0]] + t, rest)
  }

  function ReadValue(s: string): Option<(string, string)> {
    if s != "" && s[0] == '"' then ReadQuoted(s[1..]) else Some(ReadBare(s))
  }

  lemma {:induction false} ReadQuotedEscaped(text: string, rest: string)
    ensures ReadQuoted(EscapeOnce(text) + "\"" + rest) == Some((text, rest))
  {
    var s := EscapeOnce(text) + "\"" + rest;
    if text == "" {
      assert s[1..] == rest;
    } else {
      ReadQuotedEscaped(text[1..], rest);
      var e := EscapeChar(text[0]);
      var tail := EscapeOnce(text[1..]) + "\"" + rest;
      assert s == e + tail;
      assert s[|e|..] == tail;
      assert [text[0]] + text[1..] == text;
    }
  }

  lemma {:induction false} ReadBarePlain(text: string, rest: string)
    requires forall i :: 0 <= i < |text| ==> text[i] != ' '
    requires rest == "" || rest[0] == ' '
    ensures ReadBare(text + rest) == (text, rest)
  {
    if text == "" {
      assert text + rest == rest;
    } else {
      ReadBarePlain(text[1..], rest);
      assert (text + rest)[1..] == text[1..] + rest;
      assert [text[0]] + text[1..] == text;
    }
  }

  lemma ReadFormattedQuoted(text: string, rest: string)
    requires NeedsQuote(text)
    ensures ReadValue(FormatValue(text) + rest) == Some((text, rest))
  {
    hide NeedsQuote, Escaped, EscapeOnce, ReadQuoted;
    var s := FormatValue(text) + rest;
    ChainIsSinglePass(text);
    ReadQuotedEscaped(text, rest);
    assert s[0] == '"' && s[1..] == EscapeOnce(text) + "\"" + rest;
  }

  lemma ReadFormattedBare(text: string, rest: string)
    requires !NeedsQuote(text) && (rest == "" || rest[0] == ' ')
    ensures ReadValue(FormatValue(text) + rest) == Some((text, rest))
  {
    hide ReadQuoted, ReadBare;
    assert forall i :: 0 <= i < |text| ==> text[i] != ' ' && text[i] != '"';
    ReadBarePlain(text, rest);
    var s := text + rest;
    assert s != "" ==> s[0] == if text == "" then rest[0] else text[0];
  }

  /** A printed value is read back whole, and reading stops exactly where it ended. */
  lemma ReadFormatted(text: string, rest: string)
    requires rest == "" || rest[0] == ' '
    ensures ReadValue(FormatValue(text) + rest) == Some((text, rest))
  {
    hide *;
    if NeedsQuote(text) {
      ReadFormattedQuoted(text, rest);
    } else {
      ReadFormattedBare(text, rest);
    }
  }

  lemma FormatValueInjective(a: string, b: string)
    requires FormatValue(a) == FormatValue(b)
    ensures a == b
  {
    ReadFormatted(a, "");
    ReadFormatted(b, "");
    assert FormatValue(a) + "" == FormatValue(b) + "";
  }

  predicate NoRawBreaks(s: string) {
    forall i :: 0 <= i < |s| ==> s[i] != '\n' && s[i] != '\r' && s[i] != '\t'
  }

  lemma {:induction false} EscapeOnceNoRawBreaks(text: string)
    ensures NoRawBreaks(EscapeOnce(text))
  {
    if text != "" {
      EscapeOnceNoRawBreaks(text[1..]);
    }
  }

  lemma FormatValueNoRawBreaks(text: string)
    ensures NoRawBreaks(FormatValue(text))
  {
    if NeedsQuote(text) {
      ChainIsSinglePass(text);
      EscapeOnceNoRawBreaks(text);
    }
  }

  // ---------------------------------------------------------------------
  // The whole line
  // ---------------------------------------------------------------------

  datatype Record = Record(
    level: string,
    logger: string,
    msg: string,
    issueId: Option<string>,
    issueIdentifier: Option<string>,
    sessionId: Option<string>)

  function Field(key: string, value: Option<string>): string {
    match value
    case None => ""
    case Some(v) => " " + key + "=" + FormatValue(v)
  }

  /** The context columns, in their fixed order. */
  function Context(r: Record): string {
    Field("issue_id", r.issueId) + (Field("issue_identifier", r.issueIdentifier) + Field("session_id", r.sessionId))
  }

  /** The columns printed raw. */
  function Head(level: string, logger: string): string {
    "level=" + level + " logger=" + logger + " msg="
  }

  function FormatLine(r: Record): string {
    Head(r.level, r.logger) + FormatValue(r.msg) + Context(r)
  }

  /** The line, column by column; the last three are there only when they are set. */
  lemma LineExactly(r: Record)
    ensures FormatLine(r) ==
      "level=" + r.level + " logger=" + r.logger + " msg=" + FormatValue(r.msg)
      + (if r.issueId.Some? then " issue_id=" + FormatValue(r.issueId.value) else "")
      + (if r.issueIdentifier.Some? then " issue_identifier=" + FormatValue(r.issueIdentifier.value) else "")
      + (if r.sessionId.Some? then " session_id=" + FormatValue(r.sessionId.value) else "")
  {
    hide FormatValue;
    assert " " + "issue_id" + "=" == " issue_id=" && " " + "issue_identifier" + "=" == " issue_identifier="
      && " " + "session_id" + "=" == " session_id=";
  }

  function ReadField(key: string, s: string): Option<(Option<string>, string)> {
    var head := " " + key + "=";
    if head <= s then
      match ReadValue(s[|head|..])
      case None => None
      case Some((v, rest)) => Some((Some(v), rest))
    else Some((None, s))
  }

  /** Reads the message value and the context columns that follow it. */
  function ReadColumns(s: string): Option<(string, Option<string>, Option<string>, Option<string>)> {
    match ReadValue(s)
    case None => None
    case Some((msg, s1)) =>
      match ReadField("issue_id", s1)
      case None => None
      case Some((id, s2)) =>
        match ReadField("issue_identifier", s2)
        case None => None
        case Some((identifier, s3)) =>
          match ReadField("session_id", s3)
          case None => None
          case Some((session, rest)) => if rest == "" then Some((msg, id, identifier, session)) else None
  }

  lemma ReadFieldPresent(key: string, v: string, rest: string)
    requires rest == "" || rest[0] == ' '
    ensures ReadField(key, Field(key, Some(v)) + rest) == Some((Some(v), rest))
  {
    var head := " " + key + "=";
    var s := Field(key, Some(v)) + rest;
    assert s == head + (FormatValue(v) + rest);
    assert s[|head|..] == FormatValue(v) + rest;
    ReadFormatted(v, rest);
  }

  /** Two column headers that differ at a position cannot be mistaken for one another. */
  lemma ReadFieldAbsent(key: string, s: string, at: nat)
    requires s == "" || (at < |s| && at < |key| + 2 && s[at] != (" " + key + "=")[at])
    ensures ReadField(key, s) == Some((None, s))
  {
  }

  function SessionField(r: Record): string {
    Field("session_id", r.sessionId)
  }

  function IdentifierFields(r: Record): string {
    Field("issue_identifier", r.issueIdentifier) + SessionField(r)
  }

  /** A column that is there is read; where it is not, the next header gives that away. */
  lemma ReadSession(r: Record)
    ensures ReadField("session_id", SessionField(r)) == Some((r.sessionId, ""))
  {
    hide ReadField, FormatValue;
    if r.sessionId.Some? {
      ReadFieldPresent("session_id", r.sessionId.value, "");
      assert SessionField(r) == SessionField(r) + "";
    } else {
      ReadFieldAbsent("session_id", "", 0);
    }
  }

  lemma ReadIdentifier(r: Record)
    ensures ReadField("issue_identifier", IdentifierFields(r)) == Some((r.issueIdentifier, SessionField(r)))
  {
    hide ReadField, FormatValue;
    if r.issueIdentifier.Some? {
      ReadFieldPresent("issue_identifier", r.issueIdentifier.value, SessionField(r));
    } else {
      assert IdentifierFields(r) == SessionField(r);
      assert r.sessionId.Some? ==> SessionField(r)[1] == 's';
      ReadFieldAbsent("issue_identifier", SessionField(r), 1);
    }
  }

  lemma ReadIssueId(r: Record)
    ensures ReadField("issue_id", Context(r)) == Some((r.issueId, IdentifierFields(r)))
  {
    hide ReadField, FormatValue;
    var rest := IdentifierFields(r);
    if r.issueId.Some? {
      ReadFieldPresent("issue_id", r.issueId.value, rest);
    } else {
      assert Context(r) == rest;
      if r.issueIdentifier.Some? {
        assert rest[9] == 'e';
        ReadFieldAbsent("issue_id", rest, 9);
      } else {
        assert rest == SessionField(r);
        assert r.sessionId.Some? ==> rest[1] == 's';
        ReadFieldAbsent("issue_id", rest, 1);
      }
    }
  }

  lemma ContextStartsBlank(r: Record)
    ensures Context(r) == "" || Context(r)[0] == ' '
  {
    hide FormatValue;
  }

  lemma ReadColumnsOfLine(r: Record)
    ensures ReadColumns(FormatValue(r.msg) + Context(r)) == Some((r.msg, r.issueId, r.issueIdentifier, r.sessionId))
  {
    hide ReadField, ReadValue, FormatValue, Context, IdentifierFields, SessionField;
    ContextStartsBlank(r);
    ReadFormatted(r.msg, Context(r));
    ReadIssueId(r);
    ReadIdentifier(r);
    ReadSession(r);
  }

  lemma LineTail(r: Record)
    ensures |Head(r.level, r.logger)| <= |FormatLine(r)|
    ensures FormatLine(r)[|Head(r.level, r.logger)|..] == FormatValue(r.msg) + Context(r)
  {
    var head := Head(r.level, r.logger);
    assert FormatLine(r) == head + (FormatValue(r.msg) + Context(r));
  }

  /** With the raw level and logger columns equal, equal lines come from equal records. */
  lemma FormatLineInjective(a: Record, b: Record)
    requires a.level == b.level && a.logger == b.logger
    requires FormatLine(a) == FormatLine(b)
    ensures a == b
  {
    LineTail(a);
    LineTail(b);
    ReadColumnsOfLine(a);
    ReadColumnsOfLine(b);
  }
}
