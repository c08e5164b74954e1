/**
 * Rows of the SCPI error queue (section 21.8 of SCPI-1999 Volume 2): how the simulator prints them and
 * how the server reads them back.
 */
module ErrorRows {
  import opened Common
  import opened Framing

  datatype ErrorItem = ErrorItem(code: int, message: Bytes)

  function IntText(n: int): (r: Bytes)
    ensures r != ""
  {
    if n < 0 then "-" + Decimal(-n) else Decimal(n)
  }

  /** The simulator does not escape the message. */
  function PrintRow(e: ErrorItem): Bytes {
    IntText(e.code) + ",\"" + e.message + "\""
  }

  /** `null` for an empty queue, else a row. */
  datatype ParsedRow = QueueEmpty | Row(item: ErrorItem)

  /** A quoted message as far as its closing quote; backslash takes the next character along. */
  datatype Quoted = Unclosed | Closed(raw: Bytes, rest: Bytes)

  function ScanQuoted(s: Bytes): Quoted {
    if s == "" then Unclosed
    else if s[0] == '"' then Closed("", s[1..])
    else
      var step := if s[0] == '\\' then 2 else 1;
      if |s| < step then Unclosed
      else
        match ScanQuoted(s[step..])
        case Unclosed => Unclosed
        case Closed(raw, rest) => Closed(s[..step] + raw, rest)
  }

  /** Every `\"` becomes `"`. */
  function Unescape(s: Bytes): Bytes {
    if |s| >= 2 && s[0] == '\\' && s[1] == '"' then "\"" + Unescape(s[2..])
    else if s == "" then ""
    else [s[0]] + Unescape(s[1..])
  }

  /** The code-0 "no error" sentinel. */
  predicate NoError(e: ErrorItem) {
    e.code == 0 && Contains(Lower(e.message), "no error")
  }

  /** After the code: a comma and the quoted message, then nothing but white space. */
  function MatchMessage(s: Bytes): Option<Bytes> {
    var u := SkipSpace(s);
    if u == "" || u[0] != ',' then None else
    var v := SkipSpace(u[1..]);
    if v == "" || v[0] != '"' then None else CloseMessage(ScanQuoted(v[1..]))
  }

  function CloseMessage(quoted: Quoted): Option<Bytes> {
    match quoted
    case Unclosed => None
    case Closed(raw, rest) => if SkipSpace(rest) != "" then None else Some(Unescape(raw))
  }

  /** The signed code a row starts with, and what follows it. A leading plus is not accepted. */
  function ReadCode(s: Bytes): Option<(int, Bytes)> {
    var negative := s != "" && s[0] == '-';
    var t := if negative then s[1..] else s;
    var digits := DigitPrefix(t);
    if digits == "" then None else
    var magnitude: int := DigitsValue(digits);
    Some((if negative then -magnitude else magnitude, t[|digits|..]))
  }

  function MatchRow(s: Bytes): Option<ErrorItem> {
    match ReadCode(s)
    case None => None
    case Some((code, rest)) => WithCode(code, MatchMessage(rest))
  }

  function WithCode(code: int, message: Option<Bytes>): Option<ErrorItem> {
    match message
    case None => None
    case Some(m) => Some(ErrorItem(code, m))
  }

  function ParseSystErrLine(line: Bytes): ParsedRow {
    var trimmed := Trim(line);
    if trimmed == "" then QueueEmpty
    else
      match MatchRow(trimmed)
      case None => Row(ErrorItem(0, trimmed))
      case Some(item) => if NoError(item) then QueueEmpty else Row(item)
  }

  // ---------------------------------------------------------------------------
  // Printing and reading back
  // ---------------------------------------------------------------------------

  /** No quote in the message is bare and no backslash is left over at its end: the closing quote is the printed one. */
  predicate SelfContained(m: Bytes) {
    if m == "" then true
    else if m[0] == '"' then false
    else if m[0] == '\\' then |m| >= 2 && SelfContained(m[2..])
    else SelfContained(m[1..])
  }

  /** A row whose message comes back as it is: self-contained, and nothing in it to unescape. */
  predicate Readable(e: ErrorItem) {
    SelfContained(e.message) && '"' !in e.message
  }

  /** A row the reader takes for an empty queue. */
  predicate ReadsEmpty(e: ErrorItem) {
    SelfContained(e.message) && NoError(ErrorItem(e.code, Unescape(e.message)))
  }

  /** The scan of a printed message ends at the printed quote, or at a bare one before it, or not at all. */
  lemma {:induction false} ScanPrinted(m: Bytes)
    ensures match ScanQuoted(m + "\"")
            case Unclosed => !SelfContained(m)
            case Closed(raw, rest) =>
              if SelfContained(m) then raw == m && rest == "" else rest != "" && rest[|rest| - 1] == '"'
  {
    var s := m + "\"";
    if m == "" {
      assert s == "\"" && s[1..] == "";
    } else if m[0] == '"' {
      assert s[1..] == m[1..] + "\"";
    } else {
      var step := if m[0] == '\\' then 2 else 1;
      if |m| < step {
        assert s[2..] == "";
      } else {
        assert s[step..] == m[step..] + "\"";
        ScanPrinted(m[step..]);
        assert s[..step] + m[step..] == m;
      }
    }
  }

  lemma {:induction false} SkipsToEnd(s: Bytes)
    requires s != "" && !IsSpace(s[|s| - 1])
    ensures SkipSpace(s) != ""
  {
    if |s| == 1 {
      assert s[0] == s[|s| - 1];
    } else {
      SkipsToEnd(s[1..]);
    }
  }

  lemma ClosePrinted(m: Bytes)
    ensures CloseMessage(ScanQuoted(m + "\"")) == if SelfContained(m) then Some(Unescape(m)) else None
  {
    hide SelfContained, Unescape;
    ScanPrinted(m);
    match ScanQuoted(m + "\"")
    case Unclosed =>
    case Closed(raw, rest) =>
      if rest != "" {
        SkipsToEnd(rest);
      }
  }

  lemma {:induction false} UnescapeShrinks(s: Bytes)
    ensures |Unescape(s)| <= |s|
  {
    if |s| >= 2 && s[0] == '\\' && s[1] == '"' {
      UnescapeShrinks(s[2..]);
    } else if s == "" {
    } else {
      UnescapeShrinks(s[1..]);
    }
  }

  lemma {:induction false} EscapedQuoteGoes(s: Bytes, i: nat)
    requires i + 1 < |s| && s[i] == '\\' && s[i + 1] == '"'
    ensures |Unescape(s)| < |s|
  {
    if s[0] == '\\' && s[1] == '"' {
      UnescapeShrinks(s[2..]);
    } else {
      EscapedQuoteGoes(s[1..], i - 1);
    }
  }

  lemma {:induction false} QuotesAreEscaped(m: Bytes) returns (i: nat)
    requires SelfContained(m) && '"' in m
    ensures i + 1 < |m| && m[i] == '\\' && m[i + 1] == '"'
  {
    if m[0] == '\\' && m[1] == '"' {
      i := 0;
    } else {
      var step := if m[0] == '\\' then 2 else 1;
      assert m == m[..step] + m[step..];
      var j := QuotesAreEscaped(m[step..]);
      i := j + step;
    }
  }

  lemma {:induction false} UnescapePlain(m: Bytes)
    requires '"' !in m
    ensures Unescape(m) == m
  {
    if m == "" {
    } else {
      UnescapePlain(m[1..]);
    }
  }

  lemma UnescapesToItself(m: Bytes)
    requires SelfContained(m)
    ensures Unescape(m) == m <==> '"' !in m
  {
    if '"' in m {
      var i := QuotesAreEscaped(m);
      EscapedQuoteGoes(m, i);
    } else {
      UnescapePlain(m);
    }
  }

  lemma RowDigits(n: nat, tail: Bytes)
    requires tail != "" && !IsDigit(tail[0])
    ensures DigitPrefix(Decimal(n) + tail) == Decimal(n) && DigitsValue(Decimal(n)) == n
    ensures (Decimal(n) + tail)[|Decimal(n)|..] == tail
  {
    DigitPrefixThen(Decimal(n), tail);
    DigitsValueOfDecimal(n);
  }

  /** The printed row has no white space to trim. */
  lemma PrintedIsTrimmed(e: ErrorItem)
    ensures Trim(PrintRow(e)) == PrintRow(e)
  {
    var s := PrintRow(e);
    var digits := Decimal(if e.code < 0 then -e.code else e.code);
    assert IsDigit(digits[0]);
    assert SkipSpace(s) == s;
    assert s[|s| - 1] == '"';
  }

  lemma MessagePrinted(message: Bytes)
    ensures MatchMessage(",\"" + message + "\"") == CloseMessage(ScanQuoted(message + "\""))
  {
    var s := ",\"" + message + "\"";
    assert SkipSpace(s) == s;
    var v := s[1..];
    assert SkipSpace(v) == v;
    assert v[1..] == message + "\"";
  }

  lemma ReadCodeOf(sign: Bytes, digits: Bytes, tail: Bytes)
    requires sign == "" || sign == "-"
    requires digits != "" && (forall c | c in digits :: IsDigit(c)) && digits[0] != '-'
    requires DigitPrefix(digits + tail) == digits
    ensures var n: int := DigitsValue(digits);
            ReadCode(sign + digits + tail) == Some((if sign == "-" then -n else n, tail))
  {
    var s := sign + digits + tail;
    var t := if s[0] == '-' then s[1..] else s;
    assert t == digits + tail;
    assert t[|digits|..] == tail;
  }

  lemma PrintedCode(code: int, tail: Bytes)
    requires tail != "" && !IsDigit(tail[0])
    ensures ReadCode(IntText(code) + tail) == Some((code, tail))
  {
    var n: nat := if code < 0 then -code else code;
    RowDigits(n, tail);
    var digits := Decimal(n);
    var sign := if code < 0 then "-" else "";
    assert IsDigit(digits[0]);
    ReadCodeOf(sign, digits, tail);
    assert IntText(code) == sign + digits;
  }

  lemma MatchAfterCode(s: Bytes, code: int, tail: Bytes)
    requires ReadCode(s) == Some((code, tail))
    ensures MatchRow(s) == WithCode(code, MatchMessage(tail))
  {
    hide ReadCode, MatchMessage;
  }

  /** Up to the opening quote a printed row always matches; the rest depends on the message. */
  lemma MatchPrinted(e: ErrorItem)
    ensures MatchRow(PrintRow(e)) == WithCode(e.code, CloseMessage(ScanQuoted(e.message + "\"")))
  {
    var tail := ",\"" + e.message + "\"";
    PrintedCode(e.code, tail);
    assert PrintRow(e) == IntText(e.code) + tail;
    MatchAfterCode(PrintRow(e), e.code, tail);
    MessagePrinted(e.message);
  }

  lemma PrintedIsLonger(e: ErrorItem)
    ensures |PrintRow(e)| > |e.message|
  {
    hide IntText;
  }

  lemma ParseOf(line: Bytes)
    requires Trim(line) == line && line != ""
    ensures ParseSystErrLine(line) ==
            match MatchRow(line)
            case None => Row(ErrorItem(0, line))
            case Some(item) => if NoError(item) then QueueEmpty else Row(item)
  {
    hide Trim, MatchRow, NoError;
  }

  /**
   * What the reader makes of any printed row: if the message is self-contained, the row with its message
   * unescaped, unless that is the sentinel; if not, the whole line under code 0.
   */
  lemma Reading(e: ErrorItem)
    ensures ParseSystErrLine(PrintRow(e)) ==
            if !SelfContained(e.message) then Row(ErrorItem(0, PrintRow(e)))
            else if ReadsEmpty(e) then QueueEmpty
            else Row(ErrorItem(e.code, Unescape(e.message)))
  {
    hide PrintRow, Trim, MatchRow, ScanQuoted, CloseMessage, NoError, ParseSystErrLine, SelfContained, Unescape;
    PrintedIsLonger(e);
    PrintedIsTrimmed(e);
    MatchPrinted(e);
    ClosePrinted(e.message);
    ParseOf(PrintRow(e));
  }

  /** Printing a row and reading it back is the identity exactly for readable messages that are not the sentinel. */
  lemma RowRoundTrip(e: ErrorItem)
    ensures ParseSystErrLine(PrintRow(e)) == Row(e) <==> Readable(e) && !NoError(e)
  {
    hide PrintRow, NoError, ParseSystErrLine, SelfContained, Unescape;
    Reading(e);
    PrintedIsLonger(e);
    if SelfContained(e.message) {
      UnescapesToItself(e.message);
    }
  }

  const SENTINEL: Bytes := "0,\"No error\""

  lemma {:induction false} PlainIsReadable(m: Bytes)
    requires '\\' !in m && '"' !in m
    ensures SelfContained(m) && Unescape(m) == m
  {
    if m == "" {
    } else {
      PlainIsReadable(m[1..]);
    }
  }

  /** The row an empty queue answers with reads as the sentinel. */
  lemma SentinelReadsEmpty()
    ensures ParseSystErrLine(SENTINEL) == QueueEmpty
  {
    hide PrintRow, NoError, ParseSystErrLine, SelfContained, Unescape;
    var e := NoErrorItem();
    PlainIsReadable(e.message);
    Reading(e);
    NoErrorMatches();
    NoErrorPrints();
  }

  function NoErrorItem(): ErrorItem {
    ErrorItem(0, "No error")
  }

  lemma NoErrorMatches()
    ensures NoError(NoErrorItem())
  {
    assert Lower("No error") == "no error";
  }

  lemma NoErrorPrints()
    ensures PrintRow(NoErrorItem()) == SENTINEL
  {
    assert Decimal(0) == "0";
  }
}
