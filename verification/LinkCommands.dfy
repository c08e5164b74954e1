/** What the link theorem means for commands and replies: each command goes out as it is and gets its own reply. */
module LinkCommands {
  import opened Common
  import opened Framing
  import opened DeviceScripts
  import opened ScpiHost
  import opened Link

  /** Text that fits on one line and does not end in CR. */
  predicate OnOneLine(text: Bytes) {
    '\n' !in text && (text != "" ==> text[|text| - 1] != '\r')
  }

  predicate PlainText(job: Job) {
    job.payload.Text? && OnOneLine(job.payload.command)
  }

  /** The line the device takes for a text job is the job's own command, whether lines end in LF or CR LF. */
  lemma CommandTaken<D>(b: Bench<D>, jobs: seq<Job>, terminator: Bytes, refused: set<nat>, k: nat)
    requires k < |jobs| && k !in refused && PlainText(jobs[k]) && (terminator == "\n" || terminator == "\r\n")
    ensures var frames := Frames(jobs, terminator, refused);
            var (next, written) := b.dev(DeviceBefore(b, frames, k), jobs[k].payload.command);
            DeviceBefore(b, frames, k + 1) == next && FrameAnswer(b, frames, k) == written
  {
    hide Drain;
    var command := jobs[k].payload.command;
    var frames := Frames(jobs, terminator, refused);
    var frame := frames[k];
    assert frame == command + terminator;
    LineSent(command, terminator);
    DrainOneLine(b.dev, DeviceBefore(b, frames, k), frame);
  }

  lemma LineSent(command: Bytes, terminator: Bytes)
    requires OnOneLine(command) && (terminator == "\n" || terminator == "\r\n")
    ensures OneLine(command + terminator) && LineOf(command + terminator) == command
  {
    var frame := command + terminator;
    assert frame[..|frame| - 1] == if terminator == "\n" then command else command + "\r";
    assert (command + "\r")[..|command|] == command;
  }

  /** The device's state once it has been given the commands of the first `k` jobs, those refused left out. */
  function Commanded<D>(b: Bench<D>, jobs: seq<Job>, refused: set<nat>, k: nat): D
    requires k <= |jobs| && forall j :: 0 <= j < k ==> PlainText(jobs[j])
  {
    if k == 0 then b.start
    else
      var before := Commanded(b, jobs, refused, k - 1);
      if k - 1 in refused then before else b.dev(before, jobs[k - 1].payload.command).0
  }

  lemma {:induction false} CommandsInOrder<D>(b: Bench<D>, jobs: seq<Job>, terminator: Bytes, refused: set<nat>,
                                              k: nat)
    requires k <= |jobs| && forall j :: 0 <= j < k ==> PlainText(jobs[j])
    requires terminator == "\n" || terminator == "\r\n"
    ensures DeviceBefore(b, Frames(jobs, terminator, refused), k) == Commanded(b, jobs, refused, k)
  {
    hide FrameAnswer, Frame, Drain, PlainText, Frames;
    if k == 0 {
    } else {
      CommandsInOrder(b, jobs, terminator, refused, k - 1);
      if k - 1 in refused {
        assert Frames(jobs, terminator, refused)[k - 1] == "";
        NothingDrained(b.dev, DeviceBefore(b, Frames(jobs, terminator, refused), k - 1));
      } else {
        CommandTaken(b, jobs, terminator, refused, k - 1);
      }
    }
  }

  lemma NothingDrained<D>(dev: Device<D>, device: D)
    ensures Drain(dev, device, "") == Drained(device, "", "", 0)
  {
    EmptyHasNoLine();
    DrainNone(dev, device, "");
  }

  /** A line resolves a query as its text, a block as its payload; a write is done. */
  lemma OutcomeMeaning(text: Bytes, payload: Bytes)
    requires |payload| < Pow10(9)
    ensures OutcomeOf(NoReply, "") == Done
    ensures OnOneLine(text) ==> OutcomeOf(Line, text + "\n") == OutcomeOf(Line, text + "\r\n") == Answered(text)
    ensures OutcomeOf(Block, EncodeBlock(payload) + "\n") == Answered(payload)
  {
    hide ParseLine, ParseBlock, EncodeBlock;
    if OnOneLine(text) {
      ParseWholeLine(text, "");
      assert text + "\n" + "" == text + "\n" && text + "\r\n" + "" == text + "\r\n";
    }
    BlockRoundTrip(payload, "");
    assert EncodeBlock(payload) + "\n" + "" == EncodeBlock(payload) + "\n";
  }

  /** What the device wrote back, as far as the query's mode can read it. */
  predicate WroteBack(mode: ReadMode, written: Bytes, value: Bytes) {
    match mode
    case NoReply => false
    case Line => OnOneLine(value) && (written == value + "\n" || written == value + "\r\n")
    case Block => |value| < Pow10(9) && written == EncodeBlock(value) + "\n"
  }

  /**
   * Every query by text resolves with what the device wrote back to that very command, given the commands accepted
   * before it, in every run of the link in which all jobs are text.
   */
  lemma QueriesAnswered<D>(b: Bench<D>, terminator: Bytes, trace: Trace<LinkEvent>, i: nat, value: Bytes)
    requires LinkLegal(b, terminator, trace) && (terminator == "\n" || terminator == "\r\n")
    requires var l := LinkRun(b, terminator, trace); Cooperates(b, l.host.jobs, terminator, l.refused)
    requires var h := LinkRun(b, terminator, trace).host;
             && !h.closed && i < |h.settled| && forall k :: 0 <= k < |h.jobs| ==> PlainText(h.jobs[k])
    requires var l := LinkRun(b, terminator, trace);
             var id := l.host.settled[i].id;
             && id < |l.host.jobs| && id !in l.refused
             && var job := l.host.jobs[id];
             var written := b.dev(Commanded(b, l.host.jobs, l.refused, id), job.payload.command).1;
             WroteBack(job.mode, written, value)
    ensures LinkRun(b, terminator, trace).host.settled[i].outcome == Answered(value)
  {
    LinkCorrectness(b, terminator, trace);
    hide LinkLegal, LinkRun, Cooperates, Healthy, Frames, FrameAnswer, OwnOutcome, OnOneLine, Commanded, WroteBack;
    var l := LinkRun(b, terminator, trace);
    OwnMeans(b, l.host.jobs, terminator, l.refused, l.host.settled[i].id, value);
  }

  lemma OwnMeans<D>(b: Bench<D>, jobs: seq<Job>, terminator: Bytes, refused: set<nat>, id: nat, value: Bytes)
    requires id < |jobs| && id !in refused && (terminator == "\n" || terminator == "\r\n")
    requires forall k :: 0 <= k < |jobs| ==> PlainText(jobs[k])
    requires WroteBack(jobs[id].mode, b.dev(Commanded(b, jobs, refused, id), jobs[id].payload.command).1, value)
    ensures OwnOutcome(b, jobs, terminator, refused, id) == Answered(value)
  {
    hide Frames, FrameAnswer, OutcomeOf, OnOneLine, Commanded, EncodeBlock;
    CommandsInOrder(b, jobs, terminator, refused, id);
    CommandTaken(b, jobs, terminator, refused, id);
    EmptyIsShort();
    OutcomeMeaning(value, if jobs[id].mode == Block then value else "");
  }

  lemma EmptyIsShort()
    ensures |""| < Pow10(9)
  {
  }
}
