/**
 * The simulator's device half: one line in, at most one reply out. A command is looked up among the
 * personality's exact handlers, its prefix handlers, its canned responses and the common commands.
 */
module Simulator {
  import opened Common
  import opened Framing
  import opened ErrorRows
  import opened ErrorQueues
  import opened DeviceScripts
  import ScpiHost
  import Link

  datatype Command = Command(raw: Bytes, header: Bytes, normalized: Bytes, isQuery: bool)

  function HeaderLength(s: Bytes): (n: nat)
    ensures n <= |s|
  {
    if s == "" || IsSpace(s[0]) then 0 else 1 + HeaderLength(s[1..])
  }

  function ParseCommand(line: Bytes): Command {
    var raw := Trim(line);
    var headerPart := raw[..HeaderLength(raw)];
    var header := Upper(headerPart);
    var normalized := if header != "" && header[0] == ':' then header[1..] else header;
    Command(raw, header, normalized, headerPart != "" && headerPart[|headerPart| - 1] == '?')
  }

  /** What a handler asks to be sent back. */
  datatype CommandResult =
    | NoBytes
    | LineReply(text: Bytes)
    | BinaryReply(bytes: Bytes)
    | ErrorReply(code: int, message: Bytes, placeholder: Option<Bytes>)

  /** The per-socket state: the shared error queue and whatever else the handlers keep. */
  datatype SimState = SimState(errors: seq<ErrorItem>, vars: map<Bytes, Bytes>)

  datatype Handled = Returned(result: CommandResult, state: SimState) | Thrown(message: Bytes, state: SimState)

  type Handler = (Command, SimState) -> Handled

  datatype PrefixEntry = PrefixEntry(pattern: Bytes -> bool, handler: Handler)

  /** `blocks` tells which queries, by name, the handlers mean to answer with a block. */
  datatype Personality = Personality(
    exact: map<Bytes, Handler>,
    prefixes: seq<PrefixEntry>,
    responses: map<Bytes, Bytes>,
    idn: Bytes,
    opt: Bytes,
    blocks: Bytes -> bool)

  function PushError(st: SimState, code: int, message: Bytes): SimState {
    st.(errors := st.errors + [ErrorItem(code, message)])
  }

  function FirstMatch(entries: seq<PrefixEntry>, name: Bytes): Option<Handler> {
    if entries == [] then None
    else if entries[0].pattern(name) then Some(entries[0].handler)
    else FirstMatch(entries[1..], name)
  }

  function ErrorReadNames(): set<Bytes> {
    {"SYST:ERR?", "SYSTEM:ERR?", "SYST:ERROR?", "SYSTEM:ERROR?"}
  }

  /** The commands every personality inherits. */
  function CommonCommand(p: Personality, st: SimState, name: Bytes): Option<Handled> {
    if name == "*IDN?" then Some(Returned(LineReply(p.idn), st))
    else if name == "*OPT?" then Some(Returned(LineReply(p.opt), st))
    else if name == "*CLS" then Some(Returned(NoBytes, st.(errors := [])))
    else if name in {"*RST", "*OPC", "*WAI"} then Some(Returned(NoBytes, st))
    else if name in {"*TST?", "*STB?", "*ESR?", "*ESE?", "*SRE?"} then Some(Returned(LineReply("0"), st))
    else if name == "*OPC?" then Some(Returned(LineReply("1"), st))
    else if name in ErrorReadNames() then
      var (line, rest) := ReadRow(st.errors);
      Some(Returned(LineReply(line), st.(errors := rest)))
    else None
  }

  function Dispatch(p: Personality, st: SimState, c: Command): Handled {
    if c.normalized in p.exact then p.exact[c.normalized](c, st)
    else
      var prefixed := FirstMatch(p.prefixes, c.normalized);
      if prefixed.Some? then prefixed.value(c, st)
      else if c.normalized in p.responses then
        Returned(if c.isQuery then LineReply(p.responses[c.normalized]) else NoBytes, st)
      else
        var shared := CommonCommand(p, st, c.normalized);
        if shared.Some? then shared.value
        else
          Returned(if c.isQuery then LineReply("") else NoBytes, PushError(st, -113, "Undefined header: " + c.raw))
  }

  function HandleLine(p: Personality, st: SimState, line: Bytes): (CommandResult, SimState) {
    var c := ParseCommand(line);
    if c.header == "" then (NoBytes, st)
    else
      match Dispatch(p, st, c)
      case Returned(result, after) => (result, after)
      case Thrown(message, after) =>
        (if c.isQuery then LineReply("") else NoBytes, PushError(after, -100, "command error: " + message))
  }

  /** One round of the socket loop: handle a line, push an error it asks for, write the reply. */
  function Respond(p: Personality, st: SimState, line: Bytes): (SimState, Bytes) {
    var (result, after) := HandleLine(p, st, line);
    match result
    case NoBytes => (after, "")
    case LineReply(text) => (after, text + "\n")
    case BinaryReply(bytes) => (after, bytes + "\n")
    case ErrorReply(code, message, placeholder) =>
      (PushError(after, code, message), if placeholder.Some? then placeholder.value + "\n" else "")
  }

  // ---------------------------------------------------------------------------
  // One reply per query, nothing for a write
  // ---------------------------------------------------------------------------

  predicate LfFree(s: Bytes) {
    IndexOf(s, '\n') < 0
  }

  /** No queued error would break the line it is read out in. */
  predicate Quiet(st: SimState) {
    forall i :: 0 <= i < |st.errors| ==> LfFree(st.errors[i].message)
  }

  predicate EndsAsQuery(name: Bytes) {
    name != "" && name[|name| - 1] == '?'
  }

  /** How a command of this name is to be answered. */
  function KindOf(p: Personality, name: Bytes): ReadMode {
    if !EndsAsQuery(name) then NoReply else if p.blocks(name) then Block else Line
  }

  ghost predicate IsBlock(bytes: Bytes) {
    exists payload :: |payload| < Pow10(9) && bytes == EncodeBlock(payload)
  }

  /** A result that fits the kind; an error has no place where a block is expected. */
  ghost predicate Proper(kind: ReadMode, result: CommandResult) {
    match result
    case NoBytes => kind == NoReply
    case LineReply(text) => kind == Line && LfFree(text)
    case BinaryReply(bytes) => kind == Block && IsBlock(bytes)
    case ErrorReply(_, message, placeholder) =>
      && LfFree(message) && kind != Block
      && placeholder.Some? == (kind == Line)
      && (placeholder.Some? ==> LfFree(placeholder.value))
  }

  ghost predicate ProperHandled(kind: ReadMode, h: Handled) {
    && Quiet(h.state)
    && match h
       case Returned(result, _) => Proper(kind, result)
       case Thrown(message, _) => kind != Block && LfFree(message)
  }

  /** The personality's own handler for a name. */
  function HandlerFor(p: Personality, name: Bytes): Option<Handler> {
    if name in p.exact then Some(p.exact[name]) else FirstMatch(p.prefixes, name)
  }

  /** A command as parsing a line makes it. */
  predicate Parsed(c: Command) {
    LfFree(c.raw) && c.isQuery == EndsAsQuery(c.normalized)
  }

  ghost predicate HandlesProperly(p: Personality, h: Handler, c: Command) {
    forall st: SimState :: Quiet(st) ==> ProperHandled(KindOf(p, c.normalized), h(c, st))
  }

  /** Each handler answers the commands that reach it in their kind, and block queries have handlers. */
  ghost predicate ProperPersonality(p: Personality) {
    && LfFree(p.idn) && LfFree(p.opt)
    && (forall name :: name in p.responses ==> LfFree(p.responses[name]))
    && (forall c: Command :: Parsed(c) && HandlerFor(p, c.normalized).Some? ==>
          HandlesProperly(p, HandlerFor(p, c.normalized).value, c))
    && (forall name :: KindOf(p, name) == Block ==> HandlerFor(p, name).Some?)
  }

  lemma LfFreeJoin(a: Bytes, b: Bytes)
    requires LfFree(a) && LfFree(b)
    ensures LfFree(a + b)
  {
  }

  lemma LfFreeSlice(s: Bytes, i: nat, j: nat)
    requires LfFree(s) && i <= j <= |s|
    ensures LfFree(s[i..j])
  {
  }

  lemma TrimLfFree(s: Bytes)
    requires LfFree(s)
    ensures LfFree(Trim(s))
  {
    var t := SkipSpace(s);
    LfFreeSlice(s, |s| - |t|, |s|);
    LfFreeSlice(t, 0, |Trim(s)|);
  }

  lemma PrintLfFree(e: ErrorItem)
    requires LfFree(e.message)
    ensures LfFree(PrintRow(e))
  {
    var digits := Decimal(if e.code < 0 then -e.code else e.code);
    forall k | 0 <= k < |digits| ensures digits[k] != '\n' {
      assert digits[k] in digits;
    }
    LfFreeJoin("-", digits);
    LfFreeJoin(IntText(e.code), ",\"");
    LfFreeJoin(IntText(e.code) + ",\"", e.message);
    LfFreeJoin(IntText(e.code) + ",\"" + e.message, "\"");
  }

  lemma UpperEnds(s: Bytes)
    ensures EndsAsQuery(Upper(s)) == EndsAsQuery(s)
  {
    if s != "" {
      assert Upper(s)[|s| - 1] == UpperChar(s[|s| - 1]);
    }
  }

  /** The name a command is looked up by shows whether it is a query. */
  lemma NameShowsQuery(line: Bytes)
    ensures ParseCommand(line).isQuery == EndsAsQuery(ParseCommand(line).normalized)
  {
    var headerPart := Trim(line)[..HeaderLength(Trim(line))];
    UpperEnds(headerPart);
    hide Trim, Upper, HeaderLength;
    var header := Upper(headerPart);
    if |header| > 1 {
      assert header[1..][|header| - 2] == header[|header| - 1];
    }
  }

  lemma CommonProper(p: Personality, st: SimState, name: Bytes)
    requires Quiet(st) && LfFree(p.idn) && LfFree(p.opt)
    ensures CommonCommand(p, st, name).Some? ==>
              ProperHandled(if EndsAsQuery(name) then Line else NoReply, CommonCommand(p, st, name).value)
  {
    hide PrintRow, IndexOf;
    if name in ErrorReadNames() {
      ReadRowQuiet(st);
      assert EndsAsQuery(name);
    } else if name in {"*IDN?", "*OPT?", "*TST?", "*STB?", "*ESR?", "*ESE?", "*SRE?", "*OPC?"} {
      assert EndsAsQuery(name);
      OneCharLfFree('0');
      OneCharLfFree('1');
    }
  }

  lemma OneCharLfFree(c: char)
    requires c != '\n'
    ensures LfFree([c])
  {
  }

  lemma ReadRowQuiet(st: SimState)
    requires Quiet(st)
    ensures LfFree(ReadRow(st.errors).0) && Quiet(st.(errors := ReadRow(st.errors).1))
  {
    hide PrintRow, IndexOf;
    SentinelLfFree();
    if st.errors != [] {
      PrintLfFree(st.errors[0]);
    }
  }

  lemma SentinelLfFree()
    ensures LfFree(SENTINEL)
  {
    assert forall k :: 0 <= k < |SENTINEL| ==> SENTINEL[k] != '\n';
  }

  lemma PushedQuiet(st: SimState, code: int, message: Bytes)
    requires Quiet(st) && LfFree(message)
    ensures Quiet(PushError(st, code, message))
  {
  }

  lemma OneEmpty()
    ensures LfFree("")
  {
  }

  lemma DispatchProper(p: Personality, st: SimState, c: Command)
    requires ProperPersonality(p) && Quiet(st) && Parsed(c)
    ensures ProperHandled(KindOf(p, c.normalized), Dispatch(p, st, c))
  {
    hide CommonCommand, FirstMatch, IndexOf, IsBlock;
    if HandlerFor(p, c.normalized).Some? {
      assert HandlesProperly(p, HandlerFor(p, c.normalized).value, c);
    } else {
      OneEmpty();
      CommonProper(p, st, c.normalized);
      LfFreeJoin("Undefined header: ", c.raw);
      PushedQuiet(st, -113, "Undefined header: " + c.raw);
    }
  }

  lemma ParsesAs(line: Bytes)
    requires LfFree(line)
    ensures Parsed(ParseCommand(line))
  {
    hide Trim, IndexOf;
    NameShowsQuery(line);
    TrimLfFree(line);
  }

  /** Without a header there is nothing to answer. */
  lemma NoHeader(p: Personality, line: Bytes)
    requires ParseCommand(line).header == ""
    ensures KindOf(p, ParseCommand(line).normalized) == NoReply
  {
  }

  lemma HandleProper(p: Personality, st: SimState, line: Bytes)
    requires ProperPersonality(p) && Quiet(st) && LfFree(line)
    ensures var (result, after) := HandleLine(p, st, line);
            Quiet(after) && Proper(KindOf(p, ParseCommand(line).normalized), result)
  {
    hide Dispatch, ParseCommand, IndexOf, IsBlock, ProperPersonality;
    OneEmpty();
    var c := ParseCommand(line);
    ParsesAs(line);
    if c.header == "" {
      NoHeader(p, line);
    } else {
      DispatchProper(p, st, c);
      match Dispatch(p, st, c)
      case Returned(_, _) =>
      case Thrown(message, after) =>
        LfFreeJoin("command error: ", message);
        PushedQuiet(after, -100, "command error: " + message);
    }
  }

  /**
   * Whatever the line holds, the simulator answers a query with exactly one line, or one block and LF where
   * blocks are meant, and a write with nothing, as long as the personality's own handlers do.
   */
  lemma OneReplyPerQuery(p: Personality, st: SimState, line: Bytes)
    requires ProperPersonality(p) && Quiet(st) && LfFree(line)
    ensures var (after, written) := Respond(p, st, line);
            Quiet(after) && Link.WellAnswered(KindOf(p, ParseCommand(line).normalized), written)
  {
    hide ProperPersonality, HandleLine, ParseCommand, KindOf;
    HandleProper(p, st, line);
    var (result, after) := HandleLine(p, st, line);
    match result
    case NoBytes =>
    case LineReply(text) => LineEnds(text);
    case BinaryReply(bytes) =>
    case ErrorReply(code, message, placeholder) =>
      PushedQuiet(after, code, message);
      if placeholder.Some? {
        LineEnds(placeholder.value);
      }
  }

  lemma LineEnds(text: Bytes)
    requires LfFree(text)
    ensures IndexOf(text + "\n", '\n') == |text|
  {
    assert (text + "\n")[|text|] == '\n';
  }

  // ---------------------------------------------------------------------------
  // The simulator on the link
  // ---------------------------------------------------------------------------

  /** A socket's device: the personality's answer to one line after the other. */
  function DeviceOf(p: Personality): Device<SimState> {
    (st: SimState, line: Bytes) => Respond(p, st, line)
  }

  /** No line of the frame is a query. */
  predicate OnlyCommands(lines: seq<Bytes>) {
    forall i :: 0 <= i < |lines| ==> lines[i] != "" && !ParseCommand(LineOf(lines[i])).isQuery
  }

  lemma FirstLineTaken(p: Personality, st: SimState, buf: Bytes)
    requires ProperPersonality(p) && Quiet(st) && IndexOf(buf, '\n') >= 0
    ensures var line := TrimCr(buf[..IndexOf(buf, '\n')]);
            && Quiet(Respond(p, st, line).0)
            && Link.WellAnswered(KindOf(p, ParseCommand(line).normalized), Respond(p, st, line).1)
            && (!ParseCommand(line).isQuery ==> Respond(p, st, line).1 == "")
  {
    var line := TrimCr(buf[..IndexOf(buf, '\n')]);
    assert LfFree(line);
    hide Respond, ParseCommand, Quiet, ProperPersonality;
    OneReplyPerQuery(p, st, line);
    ParsesAs(line);
  }

  lemma FirstOfLines(buf: Bytes)
    requires IndexOf(buf, '\n') >= 0
    ensures var index := IndexOf(buf, '\n');
            && LinesOf(buf) == [buf[..index + 1]] + LinesOf(buf[index + 1..])
            && buf[..index + 1] != "" && LineOf(buf[..index + 1]) == TrimCr(buf[..index])
  {
    var index := IndexOf(buf, '\n');
    assert buf[..index + 1][..index] == buf[..index];
  }

  lemma LaterLines(first: Bytes, rest: seq<Bytes>)
    requires OnlyCommands([first] + rest)
    ensures OnlyCommands(rest)
  {
    hide ParseCommand, LineOf;
    forall i | 0 <= i < |rest| ensures rest[i] != "" && !ParseCommand(LineOf(rest[i])).isQuery {
      assert ([first] + rest)[i + 1] == rest[i];
    }
  }

  /** The simulator stays quiet whatever it is sent, and writes nothing while it is sent no query. */
  lemma {:induction false} DrainStaysQuiet(p: Personality, st: SimState, buf: Bytes)
    requires ProperPersonality(p) && Quiet(st)
    ensures Quiet(Drain(DeviceOf(p), st, buf).device)
    ensures OnlyCommands(LinesOf(buf)) ==> Drain(DeviceOf(p), st, buf).out == ""
    decreases |buf|
  {
    hide Respond, ParseCommand, Quiet, ProperPersonality, TrimCr, LineOf, Drain, LinesOf;
    var index := IndexOf(buf, '\n');
    if index < 0 {
      DrainNone(DeviceOf(p), st, buf);
    } else {
      var line := TrimCr(buf[..index]);
      DrainOne(DeviceOf(p), st, buf);
      FirstLineTaken(p, st, buf);
      FirstOfLines(buf);
      DrainStaysQuiet(p, Respond(p, st, line).0, buf[index + 1..]);
      var lines := LinesOf(buf);
      if OnlyCommands(lines) {
        assert lines[0] == buf[..index + 1];
        LaterLines(lines[0], LinesOf(buf[index + 1..]));
      }
    }
  }

  /** A frame of one line draws the reply to that line. */
  lemma DrainsOneQuery(p: Personality, st: SimState, frame: Bytes)
    requires ProperPersonality(p) && Quiet(st) && OneLine(frame)
    ensures Link.WellAnswered(KindOf(p, ParseCommand(LineOf(frame)).normalized), Drain(DeviceOf(p), st, frame).out)
  {
    hide Respond, ParseCommand, Quiet, ProperPersonality, Link.WellAnswered, KindOf;
    OneLineFirst(frame);
    DrainOneLine(DeviceOf(p), st, frame);
    assert frame[..|frame| - 1 + 1] == frame;
    FirstLineTaken(p, st, frame);
  }

  lemma {:induction false} DeviceStaysQuiet(p: Personality, start: SimState, frames: seq<Bytes>, k: nat)
    requires ProperPersonality(p) && Quiet(start) && k <= |frames|
    ensures Quiet(DeviceBefore(Bench(DeviceOf(p), start), frames, k))
  {
    hide Quiet, ProperPersonality, Drain;
    if k == 0 {
    } else {
      DeviceStaysQuiet(p, start, frames, k - 1);
      DrainStaysQuiet(p, DeviceBefore(Bench(DeviceOf(p), start), frames, k - 1), frames[k - 1]);
    }
  }

  /**
   * Queries are sent as queries, each on one line, and read the way they are answered; writes are sent as
   * commands. A write that carries a block may be taken for several lines, none of which is a query.
   */
  predicate AskedProperly(p: Personality, job: ScpiHost.Job, frame: Bytes) {
    && Link.Fitting(job, frame)
    && if job.mode == NoReply then OnlyCommands(LinesOf(frame))
       else job.mode == KindOf(p, ParseCommand(LineOf(frame)).normalized)
  }

  /** All frames that go out are such. */
  predicate AllAskedProperly(p: Personality, jobs: seq<ScpiHost.Job>, terminator: Bytes, refused: set<nat>) {
    forall k :: 0 <= k < |jobs| && k !in refused ==> AskedProperly(p, jobs[k], ScpiHost.Frame(jobs[k], terminator))
  }

  /** A simulator with a proper personality is a cooperative device. */
  lemma SimulatorCooperates(p: Personality, start: SimState, jobs: seq<ScpiHost.Job>, terminator: Bytes,
                            refused: set<nat>)
    requires ProperPersonality(p) && Quiet(start) && AllAskedProperly(p, jobs, terminator, refused)
    ensures Link.Cooperates(Bench(DeviceOf(p), start), jobs, terminator, refused)
  {
    hide Quiet, ProperPersonality, Drain, ParseCommand, LinesOf, Respond, ScpiHost.Frame;
    var bench := Bench(DeviceOf(p), start);
    var frames := Link.Frames(jobs, terminator, refused);
    forall k | 0 <= k < |jobs| && k !in refused
      ensures Link.Fitting(jobs[k], frames[k]) && Link.WellAnswered(jobs[k].mode, FrameAnswer(bench, frames, k))
    {
      assert frames[k] == ScpiHost.Frame(jobs[k], terminator);
      assert AskedProperly(p, jobs[k], frames[k]);
      DeviceStaysQuiet(p, start, frames, k);
      if jobs[k].mode == NoReply {
        DrainStaysQuiet(p, DeviceBefore(bench, frames, k), frames[k]);
      } else {
        DrainsOneQuery(p, DeviceBefore(bench, frames, k), frames[k]);
      }
    }
  }

  /**
   * Session and simulator together: over any interleaving and any chunking, every query for a line or a
   * block and every write that has settled has settled with the simulator's own answer to it.
   */
  lemma SimulatedLinkCorrectness(p: Personality, start: SimState, terminator: Bytes, trace: Trace<Link.LinkEvent>)
    requires ProperPersonality(p) && Quiet(start)
    requires Link.LinkLegal(Bench(DeviceOf(p), start), terminator, trace)
    requires var l := Link.LinkRun(Bench(DeviceOf(p), start), terminator, trace);
             AllAskedProperly(p, l.host.jobs, terminator, l.refused)
    ensures var bench := Bench(DeviceOf(p), start);
            Link.AnsweredByDevice(bench, terminator, Link.LinkRun(bench, terminator, trace))
  {
    hide ProperPersonality, Quiet, AllAskedProperly, Link.Cooperates, Link.AnsweredByDevice, DeviceOf;
    var bench := Bench(DeviceOf(p), start);
    var l := Link.LinkRun(bench, terminator, trace);
    SimulatorCooperates(p, start, l.host.jobs, terminator, l.refused);
    Link.LinkCorrectness(bench, terminator, trace);
  }

  /** Draining a buffer is taking its first line, if there is one, and draining the rest. */
  lemma NextLine(dev: Device<SimState>, st: SimState, buf: Bytes)
    ensures var index := IndexOf(buf, '\n');
            if index < 0 then Drain(dev, st, buf) == Drained(st, "", buf, 0)
            else
              var (next, written) := dev(st, TrimCr(buf[..index]));
              var later := Drain(dev, next, buf[index + 1..]);
              Drain(dev, st, buf) == Drained(later.device, written + later.out, later.rest, later.lines + 1)
  {
    if IndexOf(buf, '\n') < 0 {
      DrainNone(dev, st, buf);
    } else {
      DrainOne(dev, st, buf);
    }
  }

  /** The socket's receive buffer and the session behind it. */
  class Connection {
    const device: Device<SimState>
    var state: SimState
    var buffer: Bytes

    constructor (personality: Personality, state: SimState)
      ensures device == DeviceOf(personality) && this.state == state && buffer == ""
    {
      device := DeviceOf(personality);
      this.state := state;
      buffer := "";
    }

    /** One data event, its handlers finishing before the next: every complete line is handled in order. */
    method OnData(chunk: Bytes) returns (written: Bytes)
      modifies this
      ensures Drain(device, old(state), old(buffer) + chunk).(lines := 0) == Drained(state, written, buffer, 0)
    {
      hide IndexOf, TrimCr, Drain;
      buffer := buffer + chunk;
      written := "";
      ghost var goal := Drain(device, state, buffer);
      NextLine(device, state, buffer);
      var line := TakeLine();
      while line.Some?
        invariant Owes(goal, line, written)
        decreases |buffer| + (if line.Some? then 1 else 0)
      {
        var (after, reply) := device(state, line.value);
        var rest := Drain(device, after, buffer).out;
        assert written + (reply + rest) == written + reply + rest;
        state := after;
        written := written + reply;
        NextLine(device, state, buffer);
        line := TakeLine();
      }
    }

    /** What `goal` still holds in store: the line just taken and those left in the buffer. */
    ghost predicate Owes(goal: Drained<SimState>, line: Option<Bytes>, written: Bytes)
      reads this
    {
      match line
      case None => goal.(lines := 0) == Drained(state, written, buffer, 0)
      case Some(text) =>
        var (after, reply) := device(state, text);
        var rest := Drain(device, after, buffer);
        goal.device == rest.device && goal.out == written + (reply + rest.out) && goal.rest == rest.rest
    }

    method TakeLine() returns (line: Option<Bytes>)
      modifies this`buffer
      ensures var index := IndexOf(old(buffer), '\n');
              if index < 0 then line == None && buffer == old(buffer)
              else line == Some(TrimCr(old(buffer)[..index])) && buffer == old(buffer)[index + 1..]
    {
      var index := IndexOf(buffer, '\n');
      if index < 0 {
        return None;
      }
      line := Some(TrimCr(buffer[..index]));
      buffer := buffer[index + 1..];
    }
  }
}
