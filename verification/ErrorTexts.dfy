/** Rows of an error queue as instruments write them: with escaped quotes, with spaces, or nothing at all. */
module ErrorTexts {
  import opened Common
  import opened Framing
  import opened ErrorRows

  /** How an instrument that escapes its quotes writes a message. */
  function Escape(m: Bytes): Bytes {
    if m == "" then ""
    else if m[0] == '"' then "\\\"" + Escape(m[1..])
    else [m[0]] + Escape(m[1..])
  }

  /** Escaped quotes are read back as quotes. */
  lemma {:induction false} EscapedIsRead(m: Bytes)
    requires '\\' !in m
    ensures SelfContained(Escape(m)) && Unescape(Escape(m)) == m
  {
    if m == "" {
    } else {
      EscapedIsRead(m[1..]);
      var e, rest := Escape(m), Escape(m[1..]);
      if m[0] == '"' {
        assert e[2..] == rest;
      } else {
        assert e[1..] == rest;
      }
    }
  }

  /** A row with its quotes escaped comes back as it was meant, unless it says that there is no error. */
  lemma EscapedRoundTrip(code: int, m: Bytes)
    requires '\\' !in m
    ensures ParseSystErrLine(PrintRow(ErrorItem(code, Escape(m)))) ==
            if NoError(ErrorItem(code, m)) then QueueEmpty else Row(ErrorItem(code, m))
  {
    hide PrintRow, ParseSystErrLine, NoError, SelfContained, Unescape;
    EscapedIsRead(m);
    Reading(ErrorItem(code, Escape(m)));
  }

  /** What counts as no error: code 0, and those words anywhere in the message, in any case. */
  lemma NoErrorMeaning(e: ErrorItem)
    ensures NoError(e) <==> e.code == 0 && exists i: nat :: StandsAt(Lower(e.message), "no error", i)
  {
    hide Contains, StandsAt;
    ContainsMeaning(Lower(e.message), "no error");
  }

  /** An empty answer means an empty queue. */
  lemma BlankIsEmpty(line: Bytes)
    requires AllWhite(line)
    ensures ParseSystErrLine(line) == QueueEmpty
  {
    hide Trim;
    AllWhiteSkipped(line);
  }

  /** An answer that is no row at all is an error of its own, with code 0. */
  lemma NoRowIsReported(before: Bytes, text: Bytes, behind: Bytes)
    requires AllWhite(before) && AllWhite(behind) && Trimmed(text) && text != "" && text[0] != '-' && !IsDigit(text[0])
    ensures ParseSystErrLine(before + text + behind) == Row(ErrorItem(0, text))
  {
    hide Trim;
    TrimMeaning(before, text, behind);
    assert DigitPrefix(text) == "";
  }

  /** White space around the row and on either side of its comma makes no difference. */
  lemma SpacesDoNotMatter(before: Bytes, e: ErrorItem, a: Bytes, b: Bytes, behind: Bytes)
    requires AllWhite(before) && AllWhite(a) && AllWhite(b) && AllWhite(behind)
    ensures SelfContained(e.message) ==>
              ParseSystErrLine(before + (IntText(e.code) + (a + "," + b + ("\"" + e.message + "\""))) + behind) ==
              ParseSystErrLine(PrintRow(e))
  {
    hide ParseSystErrLine, ReadCode, MatchMessage, ScanQuoted, CloseMessage, Trim, SelfContained, Unescape;
    hide NoError, IntText;
    if SelfContained(e.message) {
      var quoted := "\"" + e.message + "\"";
      var tail := a + "," + b + quoted;
      var row := IntText(e.code) + tail;
      SpacedIsTrimmed(e.code, tail);
      TrimMeaning(before, row, behind);
      SpacedTail(a, b, e.message);
      CodeBefore(e.code, a, b, quoted);
      MatchAfterCode(row, e.code, tail);
      RowIsReadAs(before + row + behind, row);
      ClosePrinted(e.message);
      Reading(e);
    }
  }

  lemma RowIsReadAs(line: Bytes, row: Bytes)
    requires Trim(line) == row && row != ""
    ensures ParseSystErrLine(line) ==
            match MatchRow(row)
            case None => Row(ErrorItem(0, row))
            case Some(item) => if NoError(item) then QueueEmpty else Row(item)
  {
    hide Trim, MatchRow, NoError;
  }

  lemma SpacedIsTrimmed(code: int, tail: Bytes)
    requires tail != "" && tail[|tail| - 1] == '"'
    ensures Trimmed(IntText(code) + tail) && IntText(code) + tail != ""
  {
    var n: nat := if code < 0 then -code else code;
    assert IsDigit(Decimal(n)[0]);
    var s := IntText(code) + tail;
    assert s[0] == '-' || IsDigit(s[0]);
    assert s[|s| - 1] == tail[|tail| - 1];
  }

  lemma CodeBefore(code: int, a: Bytes, b: Bytes, quoted: Bytes)
    requires AllWhite(a) && quoted != "" && quoted[|quoted| - 1] == '"'
    ensures var tail := a + "," + b + quoted;
            && ReadCode(IntText(code) + tail) == Some((code, tail))
            && tail != "" && tail[|tail| - 1] == '"'
  {
    hide ReadCode, IntText;
    var tail := a + "," + b + quoted;
    assert tail[0] == if a == "" then ',' else a[0];
    PrintedCode(code, tail);
  }

  lemma SpacedTail(a: Bytes, b: Bytes, message: Bytes)
    requires AllWhite(a) && AllWhite(b)
    ensures var tail := a + "," + b + ("\"" + message + "\"");
            && MatchMessage(tail) == CloseMessage(ScanQuoted(message + "\""))
            && tail[|tail| - 1] == '"'
  {
    hide MatchMessage, ScanQuoted, CloseMessage, SkipSpace;
    var quoted := "\"" + message + "\"";
    var u := "," + (b + quoted);
    assert a + "," + b + quoted == a + u;
    SkipsWhite(a, u);
    SkipsWhite(b, quoted);
    MatchFrom(a + u, b + quoted, quoted);
    assert quoted[1..] == message + "\"";
  }

  lemma MatchFrom(s: Bytes, rest: Bytes, quoted: Bytes)
    requires SkipSpace(s) == "," + rest && SkipSpace(rest) == quoted && quoted != "" && quoted[0] == '"'
    ensures MatchMessage(s) == CloseMessage(ScanQuoted(quoted[1..]))
  {
    hide ScanQuoted, CloseMessage, SkipSpace;
    assert ("," + rest)[1..] == rest;
  }
}
