/** What the simulator makes of a line: the command in it, who answers it, and the bytes written back. */
module SimulatorReplies {
  import opened Common
  import opened Framing
  import opened ErrorRows
  import opened DeviceScripts
  import opened Simulator
  import Link
  import ScpiHost
  import LinkCommands

  // ---------------------------------------------------------------------------
  // The command in a line
  // ---------------------------------------------------------------------------

  /** No white space in it. */
  predicate OneWord(word: Bytes) {
    word != "" && forall i :: 0 <= i < |word| ==> word[i] !in WHITE
  }

  lemma {:induction false} HeaderIsWord(word: Bytes, rest: Bytes)
    requires forall i :: 0 <= i < |word| ==> word[i] !in WHITE
    requires rest == "" || rest[0] in WHITE
    ensures HeaderLength(word + rest) == |word|
  {
    if word == "" {
      assert word + rest == rest;
    } else {
      assert (word + rest)[1..] == word[1..] + rest;
      HeaderIsWord(word[1..], rest);
    }
  }

  /**
   * A command is the first word of its line, case and one colon in front aside, whatever white space is around it;
   * it is a query if that word ends in a question mark.
   */
  lemma CommandInLine(before: Bytes, word: Bytes, rest: Bytes, behind: Bytes)
    requires AllWhite(before) && AllWhite(behind) && OneWord(word) && Trimmed(word + rest)
    requires rest == "" || rest[0] in WHITE
    ensures var c := ParseCommand(before + (word + rest) + behind);
            && c.raw == word + rest && c.header == Upper(word)
            && c.normalized == (if word[0] == ':' then Upper(word[1..]) else Upper(word))
            && c.isQuery == (word[|word| - 1] == '?')
  {
    hide Trim, HeaderLength;
    TrimMeaning(before, word + rest, behind);
    HeaderIsWord(word, rest);
    assert (word + rest)[..|word|] == word;
    assert Upper(word)[0] == ':' <==> word[0] == ':' by { ColonFolds(word[0]); }
    assert Upper(word)[1..] == Upper(word[1..]);
  }

  lemma ColonFolds(c: char)
    ensures UpperChar(c) == ':' <==> c == ':'
  {
  }

  /** A name as handlers are registered under it: one word in capitals with no colon in front. */
  predicate IsName(name: Bytes) {
    OneWord(name) && Upper(name) == name && name[0] != ':'
  }

  /** Such a name is found in a line that holds it alone. */
  lemma NameInLine(name: Bytes)
    requires IsName(name)
    ensures var c := ParseCommand(name);
            c.raw == name && c.header == name && c.normalized == name && c.isQuery == EndsAsQuery(name)
  {
    hide ParseCommand, Upper;
    AloneInLine(name);
  }

  lemma AloneInLine(word: Bytes)
    requires OneWord(word)
    ensures var c := ParseCommand(word);
            && c.raw == word && c.header == Upper(word)
            && c.normalized == (if word[0] == ':' then Upper(word[1..]) else Upper(word))
            && c.isQuery == (word[|word| - 1] == '?')
  {
    hide ParseCommand, Upper;
    assert word + "" == word && "" + word == word;
    CommandInLine("", word, "", "");
  }

  // ---------------------------------------------------------------------------
  // Who answers, and what is written
  // ---------------------------------------------------------------------------

  /** The first of the patterns that match. */
  predicate MatchesFirst(entries: seq<PrefixEntry>, name: Bytes, i: nat) {
    i < |entries| && entries[i].pattern(name) && forall j :: 0 <= j < i ==> !entries[j].pattern(name)
  }

  lemma {:induction false} FirstMatchIs(entries: seq<PrefixEntry>, name: Bytes, i: nat)
    requires MatchesFirst(entries, name, i)
    ensures FirstMatch(entries, name) == Some(entries[i].handler)
  {
    if i == 0 {
    } else {
      assert !entries[0].pattern(name);
      assert forall j :: 0 <= j < i - 1 ==> entries[1..][j] == entries[j + 1];
      FirstMatchIs(entries[1..], name, i - 1);
    }
  }

  lemma {:induction false} NoMatch(entries: seq<PrefixEntry>, name: Bytes)
    requires forall j :: 0 <= j < |entries| ==> !entries[j].pattern(name)
    ensures FirstMatch(entries, name) == None
  {
    if entries == [] {
    } else {
      NoMatch(entries[1..], name);
    }
  }

  /** Nothing of the personality's own is registered under the name. */
  predicate NotOwn(p: Personality, name: Bytes) {
    && name !in p.exact && name !in p.responses
    && forall j :: 0 <= j < |p.prefixes| ==> !p.prefixes[j].pattern(name)
  }

  /**
   * The handler registered under the exact name answers before any pattern, the first matching pattern before a canned
   * response, and that before the common commands.
   */
  lemma WhoAnswers(p: Personality, st: SimState, c: Command)
    ensures c.normalized in p.exact ==> Dispatch(p, st, c) == p.exact[c.normalized](c, st)
    ensures forall i: nat :: c.normalized !in p.exact && MatchesFirst(p.prefixes, c.normalized, i) ==>
              Dispatch(p, st, c) == p.prefixes[i].handler(c, st)
    ensures c.normalized !in p.exact && c.normalized in p.responses
            && (forall j :: 0 <= j < |p.prefixes| ==> !p.prefixes[j].pattern(c.normalized)) ==>
              Dispatch(p, st, c) ==
              Returned(if c.isQuery then LineReply(p.responses[c.normalized]) else NoBytes, st)
  {
    hide FirstMatch;
    forall i: nat | MatchesFirst(p.prefixes, c.normalized, i)
      ensures FirstMatch(p.prefixes, c.normalized) == Some(p.prefixes[i].handler)
    {
      FirstMatchIs(p.prefixes, c.normalized, i);
    }
    if forall j :: 0 <= j < |p.prefixes| ==> !p.prefixes[j].pattern(c.normalized) {
      NoMatch(p.prefixes, c.normalized);
    }
  }

  /** The state with one more error at the end of the queue. */
  predicate Pushed(before: SimState, after: SimState, code: int, message: Bytes) {
    after.vars == before.vars && after.errors == before.errors + [ErrorItem(code, message)]
  }

  /**
   * What is written for a handler's result: its text or bytes and the terminator; for an error the placeholder, if
   * there is one, and the error joins the queue; for one that throws an empty line to a query, and error -100.
   */
  lemma WhatIsWritten(p: Personality, st: SimState, line: Bytes)
    requires ParseCommand(line).header != ""
    ensures var c := ParseCommand(line);
            var (after, written) := Respond(p, st, line);
            match Dispatch(p, st, c)
            case Returned(NoBytes, next) => after == next && written == ""
            case Returned(LineReply(text), next) => after == next && written == text + "\n"
            case Returned(BinaryReply(bytes), next) => after == next && written == bytes + "\n"
            case Returned(ErrorReply(code, message, None), next) => Pushed(next, after, code, message) && written == ""
            case Returned(ErrorReply(code, message, Some(text)), next) =>
              Pushed(next, after, code, message) && written == text + "\n"
            case Thrown(message, next) =>
              && Pushed(next, after, -100, "command error: " + message)
              && written == if c.isQuery then "\n" else ""
  {
    hide ParseCommand, Dispatch;
    assert "" + "\n" == "\n";
  }

  lemma BlankLineIsIgnored(p: Personality, st: SimState, line: Bytes)
    requires AllWhite(line)
    ensures Respond(p, st, line) == (st, "")
  {
    hide Dispatch, Trim;
    AllWhiteSkipped(line);
  }

  /** An unknown command is an error -113, and a query gets an empty line for it. */
  lemma UnknownCommand(p: Personality, st: SimState, line: Bytes)
    requires ParseCommand(line).header != "" && NotOwn(p, ParseCommand(line).normalized)
    requires CommonCommand(p, st, ParseCommand(line).normalized).None?
    ensures var c := ParseCommand(line);
            var (after, written) := Respond(p, st, line);
            Pushed(st, after, -113, "Undefined header: " + c.raw) && written == if c.isQuery then "\n" else ""
  {
    hide ParseCommand, CommonCommand, FirstMatch;
    NoMatch(p.prefixes, ParseCommand(line).normalized);
    assert "" + "\n" == "\n";
  }

  /** How the common commands are answered where a personality has nothing of its own. */
  lemma CommonReplies(p: Personality, st: SimState, name: Bytes)
    requires IsName(name) && NotOwn(p, name)
    ensures name == "*IDN?" ==> Respond(p, st, name) == (st, p.idn + "\n")
    ensures name == "*OPT?" ==> Respond(p, st, name) == (st, p.opt + "\n")
    ensures name in {"*TST?", "*STB?", "*ESR?", "*ESE?", "*SRE?"} ==> Respond(p, st, name) == (st, "0\n")
    ensures name == "*OPC?" ==> Respond(p, st, name) == (st, "1\n")
    ensures name in {"*RST", "*OPC", "*WAI"} ==> Respond(p, st, name) == (st, "")
    ensures name == "*CLS" ==> Respond(p, st, name) == (st.(errors := []), "")
    ensures name in {"SYST:ERR?", "SYSTEM:ERR?", "SYST:ERROR?", "SYSTEM:ERROR?"} ==>
              if st.errors == [] then Respond(p, st, name) == (st, "0,\"No error\"\n")
              else Respond(p, st, name) == (st.(errors := st.errors[1..]), PrintRow(st.errors[0]) + "\n")
  {
    hide ParseCommand, FirstMatch, PrintRow;
    NameInLine(name);
    NoMatch(p.prefixes, name);
    assert "0" + "\n" == "0\n" && "1" + "\n" == "1\n" && SENTINEL + "\n" == "0,\"No error\"\n";
    assert st.errors == [] ==> st.(errors := []) == st;
  }

  /** The errors pushed are the errors read, in order: one query takes the oldest row, as the queue is to be drained. */
  lemma ErrorsComeBack(p: Personality, st: SimState, code: int, message: Bytes)
    requires NotOwn(p, "SYST:ERR?") && st.errors == []
    ensures Respond(p, PushError(st, code, message), "SYST:ERR?") == (st, PrintRow(ErrorItem(code, message)) + "\n")
  {
    hide Respond, NotOwn, PrintRow;
    ErrorQueryIsName();
    CommonReplies(p, PushError(st, code, message), "SYST:ERR?");
    assert st.errors + [ErrorItem(code, message)] != [];
    assert (st.errors + [ErrorItem(code, message)])[1..] == st.errors;
  }

  lemma ErrorQueryIsName()
    ensures IsName("SYST:ERR?")
  {
    NamesAreNames("SYST:ERR?");
  }

  /** Capitals, asterisks, colons and question marks make up names. */
  lemma NamesAreNames(name: Bytes)
    requires name != "" && name[0] != ':' && forall i :: 0 <= i < |name| ==> NamePart(name[i])
    ensures IsName(name)
  {
    forall i | 0 <= i < |name| ensures name[i] !in WHITE && UpperChar(name[i]) == name[i] {
      NameChar(name[i]);
    }
    assert Upper(name) == name;
  }

  predicate NamePart(c: char) {
    'A' <= c <= 'Z' || c == '*' || c == ':' || c == '?'
  }

  lemma NameChar(c: char)
    requires NamePart(c)
    ensures c !in WHITE && UpperChar(c) == c
  {
  }

  lemma IdentityAnswered(p: Personality)
    requires NotOwn(p, "*IDN?")
    ensures forall st: SimState :: DeviceOf(p)(st, "*IDN?") == (st, p.idn + "\n")
  {
    NamesAreNames("*IDN?");
    hide IsName, NotOwn, Respond;
    forall st: SimState ensures Respond(p, st, "*IDN?") == (st, p.idn + "\n") {
      CommonReplies(p, st, "*IDN?");
    }
  }

  /**
   * End to end: in every run of the link in which all jobs are text, every settled `*IDN?` query has resolved with the
   * simulator's identity.
   */
  lemma IdentityOverTheLink(p: Personality, start: SimState, terminator: Bytes, trace: Trace<Link.LinkEvent>, i: nat)
    requires ProperPersonality(p) && Quiet(start) && NotOwn(p, "*IDN?") && LinkCommands.OnOneLine(p.idn)
    requires terminator == "\n" || terminator == "\r\n"
    requires Link.LinkLegal(Bench(DeviceOf(p), start), terminator, trace)
    requires var l := Link.LinkRun(Bench(DeviceOf(p), start), terminator, trace);
             && AllAskedProperly(p, l.host.jobs, terminator, l.refused)
             && !l.host.closed && i < |l.host.settled|
             && (forall k :: 0 <= k < |l.host.jobs| ==> LinkCommands.PlainText(l.host.jobs[k]))
             && var id := l.host.settled[i].id;
             && id < |l.host.jobs| && id !in l.refused
             && l.host.jobs[id].mode == Line && l.host.jobs[id].payload.command == "*IDN?"
    ensures Link.LinkRun(Bench(DeviceOf(p), start), terminator, trace).host.settled[i].outcome ==
            ScpiHost.Answered(p.idn)
  {
    IdentityAnswered(p);
    hide ProperPersonality, Quiet, AllAskedProperly, NotOwn;
    hide Link.Cooperates, Link.LinkLegal, Link.LinkRun, Link.Healthy;
    hide LinkCommands.Commanded, LinkCommands.PlainText, LinkCommands.OnOneLine, Respond;
    var b := Bench(DeviceOf(p), start);
    var l := Link.LinkRun(b, terminator, trace);
    var id := l.host.settled[i].id;
    SimulatorCooperates(p, start, l.host.jobs, terminator, l.refused);
    LinkCommands.QueriesAnswered(b, terminator, trace, i, p.idn);
  }
}
