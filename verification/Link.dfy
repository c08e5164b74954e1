/**
 * The whole link: the SCPI session, the bytes under way in both directions, and a device that answers
 * line by line, as the simulator's socket handler does. The transport takes a frame from the session or
 * refuses it, cuts both streams into chunks as it likes, and may end at any time; calls, send confirmations,
 * deliveries and deadlines interleave in any order.
 */
module Link {
  import opened Common
  import opened Framing
  import opened DeviceScripts
  import opened ScpiHost

  /**
   * `passed` counts the frames the transport has taken from the session or refused, and `refused` names the
   * latter. `handled` counts the lines the device has taken so far.
   */
  datatype State<D> = State(
    host: Host,
    passed: nat,
    refused: set<nat>,
    toDevice: Bytes,
    deviceBuf: Bytes,
    device: D,
    toHost: Bytes,
    handled: nat)

  datatype LinkEvent =
    | Request(job: Job)
    | Transmit
    | Confirm(id: nat)
    | Refuse(id: nat)
    | ArriveAtDevice(count: nat)
    | ArriveAtHost(count: nat)
    | Deadline(id: nat)
    | Hangup
    | Disconnect

  function Begin<D>(b: Bench<D>, terminator: Bytes): State<D> {
    State(Initial(terminator), 0, {}, "", "", b.start, "", 0)
  }

  /** The chunk would end between a block and its LF while a block query waits for it. */
  predicate SplitsBlock<D>(l: State<D>, count: nat)
    requires WellFormed(l.host) && count <= |l.toHost|
  {
    && l.host.inFlight.Some?
    && l.host.jobs[l.host.inFlight.value].mode == Block
    && OrphanLf(Block, l.host.buffer + l.toHost[..count], l.toHost[count..])
  }

  /** The send is refused while its job is in flight and its frame not taken, or when nothing is in flight. */
  predicate Refusable<D>(l: State<D>, id: nat) {
    l.host.inFlight.None? || (l.host.inFlight == Some(id) && id == l.passed)
  }

  /** A send settles once the transport has taken its frame, or is refused. A deadline goes off in vain. */
  predicate Possible<D>(l: State<D>, e: LinkEvent)
    requires WellFormed(l.host)
  {
    match e
    case Request(_) => true
    case Transmit => l.passed < |l.host.frames|
    case Confirm(id) => id in l.host.sends && id < l.passed
    case Refuse(id) => id in l.host.sends && Refusable(l, id)
    case ArriveAtDevice(count) => 0 < count <= |l.toDevice|
    case ArriveAtHost(count) => 0 < count <= |l.toHost| && !SplitsBlock(l, count)
    case Deadline(id) => id in l.host.armed && l.host.inFlight != Some(id)
    case Hangup => true
    case Disconnect => true
  }

  /** A refused frame that has not been taken never goes out. */
  function Refusal<D>(l: State<D>, id: nat): State<D>
    requires WellFormed(l.host) && id in l.host.sends
  {
    var next := l.(host := SendRejected(l.host, id));
    if id == l.passed then next.(passed := l.passed + 1, refused := l.refused + {id}) else next
  }

  function Delivery<D>(l: State<D>, count: nat): State<D>
    requires WellFormed(l.host) && count <= |l.toHost|
  {
    l.(host := HandleData(l.host, l.toHost[..count]), toHost := l.toHost[count..])
  }

  function Next<D>(b: Bench<D>, l: State<D>, e: LinkEvent): State<D>
    requires WellFormed(l.host) && Possible(l, e)
  {
    match e
    case Request(job) => l.(host := Enqueue(l.host, job))
    case Transmit => l.(toDevice := l.toDevice + l.host.frames[l.passed], passed := l.passed + 1)
    case Confirm(id) => l.(host := SendSettled(l.host, id))
    case Refuse(id) => Refusal(l, id)
    case ArriveAtDevice(count) =>
      var d := Drain(b.dev, l.device, l.deviceBuf + l.toDevice[..count]);
      l.(toDevice := l.toDevice[count..], deviceBuf := d.rest, device := d.device,
         toHost := l.toHost + d.out, handled := l.handled + d.lines)
    case ArriveAtHost(count) => Delivery(l, count)
    case Deadline(id) => l.(host := DeadlineFired(l.host, id))
    case Hangup => l.(host := Close(l.host))
    case Disconnect => l.(host := HandleClose(l.host))
  }

  // ---------------------------------------------------------------------------
  // What a cooperative device answers
  // ---------------------------------------------------------------------------

  /** The frames of a list of jobs; nothing goes out for those refused. */
  function Frames(jobs: seq<Job>, terminator: Bytes, refused: set<nat>): (r: seq<Bytes>)
    ensures |r| == |jobs|
    ensures forall i :: 0 <= i < |jobs| ==> r[i] == if i in refused then "" else Frame(jobs[i], terminator)
  {
    seq(|jobs|, i requires 0 <= i < |jobs| => if i in refused then "" else Frame(jobs[i], terminator))
  }

  /** Nothing for a write, one LF-terminated line for a query, one block and LF for a block query. */
  ghost predicate WellAnswered(mode: ReadMode, answer: Bytes) {
    match mode
    case NoReply => answer == ""
    case Line => answer != "" && IndexOf(answer, '\n') == |answer| - 1
    case Block => exists payload :: |payload| < Pow10(9) && answer == EncodeBlock(payload) + "\n"
  }

  /** How a job settles when it gets this answer: a write is done, a query resolves with what it reads. */
  function OutcomeOf(mode: ReadMode, answer: Bytes): Outcome {
    if mode == NoReply then Done
    else
      match ParseReply(mode, answer)
      case Got(value, _) => Answered(value)
      case _ => Rejected(Protocol)
  }

  /** Everything asked over the link: the jobs, those refused, the frames that go out, how each should settle. */
  datatype Plan<!D> = Plan(
    bench: Bench<D>,
    jobs: seq<Job>,
    refused: set<nat>,
    frames: seq<Bytes>,
    wire: Wire,
    expected: seq<Outcome>)

  /** A frame ends in LF, and that of a query holds no other; the block a write carries may. */
  predicate Fitting(job: Job, frame: Bytes) {
    EndsInLf(frame) && (job.mode != NoReply ==> OneLine(frame))
  }

  /** The lines job `k` takes up on the wire: none if it is refused, one for a query, any number for a write. */
  predicate Placed<D>(p: Plan<D>, k: nat)
    requires k < |p.jobs| && k + 1 < |p.wire.ends|
  {
    if k in p.refused then p.wire.ends[k + 1] == p.wire.ends[k]
    else p.wire.ends[k] < p.wire.ends[k + 1] && (p.jobs[k].mode != NoReply ==> p.wire.ends[k + 1] == p.wire.ends[k] + 1)
  }

  predicate Framed<D>(p: Plan<D>) {
    && |p.frames| == |p.jobs| == |p.expected| && |p.wire.ends| == |p.jobs| + 1 && Wired(p.frames, p.wire)
    && forall k :: 0 <= k < |p.jobs| ==> Placed(p, k)
  }

  /** Where the lines of the first `k` frames end. */
  function End<D>(p: Plan<D>, k: nat): (e: nat)
    requires Framed(p) && k <= |p.frames|
    ensures e <= |p.wire.lines|
  {
    assert k < |p.frames| ==> p.wire.ends[k] <= p.wire.ends[|p.frames|];
    p.wire.ends[k]
  }

  /** What the device answers to job `k`, line by line. */
  function JobAnswer<D>(p: Plan<D>, k: nat): Bytes
    requires Framed(p) && k < |p.jobs|
  {
    assert p.wire.ends[k] <= p.wire.ends[k + 1];
    Answers(p.bench, p.wire.lines, End(p, k), End(p, k + 1))
  }

  ghost predicate Cooperative<D>(p: Plan<D>) {
    && Framed(p)
    && (forall k :: 0 <= k < |p.jobs| ==>
          if k in p.refused then p.expected[k] == Rejected(SendFailed)
          else
            && WellAnswered(p.jobs[k].mode, JobAnswer(p, k))
            && p.expected[k] == OutcomeOf(p.jobs[k].mode, JobAnswer(p, k)))
  }

  /** A whole answer is read as one reply that leaves nothing behind. */
  lemma AnswerComplete(mode: ReadMode, answer: Bytes)
    requires WellAnswered(mode, answer) && mode != NoReply
    ensures ParseReply(mode, answer).Got? && ParseReply(mode, answer).rest == ""
    ensures answer != ""
  {
    hide EncodeBlock, ParseBlock;
    if mode == Block {
      var payload :| |payload| < Pow10(9) && answer == EncodeBlock(payload) + "\n";
      BlockRoundTrip(payload, "");
      assert EncodeBlock(payload) + "\n" + "" == answer;
    }
  }

  /** A block answer is caught between block and LF exactly when its last byte alone is missing. */
  lemma OrphanMeansLastByte(answer: Bytes, k: nat)
    requires WellAnswered(Block, answer) && k <= |answer|
    ensures OrphanLf(Block, answer[..k], answer[k..]) <==> k + 1 == |answer|
  {
    hide EncodeBlock, BlockHeader;
    var payload :| |payload| < Pow10(9) && answer == EncodeBlock(payload) + "\n";
    if k + 1 == |answer| {
      assert answer[..k] == EncodeBlock(payload) && answer[k..] == "\n";
      BlockBare(payload);
    } else if k < |answer| {
      assert answer[..k] == EncodeBlock(payload)[..k];
      BlockPrefixNeedsMore(payload, k);
    }
  }

  /** Part of an answer is not read, unless it is a block that lacks only its LF. */
  lemma AnswerIncomplete(mode: ReadMode, answer: Bytes, k: nat)
    requires WellAnswered(mode, answer) && k < |answer|
    requires mode == Block ==> k + 1 < |answer|
    ensures ParseReply(mode, answer[..k]) == NeedMore
  {
    match mode
    case NoReply =>
    case Line => assert forall i :: 0 <= i < k ==> answer[..k][i] == answer[i];
    case Block =>
      var payload :| |payload| < Pow10(9) && answer == EncodeBlock(payload) + "\n";
      assert answer[..k] == EncodeBlock(payload)[..k];
      BlockPrefixNeedsMore(payload, k);
  }

  lemma EmptyNeedsMore(mode: ReadMode)
    ensures ParseReply(mode, "") == NeedMore
  {
  }

  // ---------------------------------------------------------------------------
  // Invariant
  // ---------------------------------------------------------------------------

  /** A query is in flight and the device has taken its frame. */
  predicate Asked<D>(p: Plan<D>, l: State<D>)
    requires Framed(p)
  {
    && l.host.inFlight.Some?
    && l.host.inFlight.value < |l.host.jobs|
    && l.host.jobs[l.host.inFlight.value].mode != NoReply
    && l.passed == |l.host.frames| <= |p.frames| && l.handled == End(p, l.passed)
  }

  /** The transport has passed every frame, or all but that of the job in flight. */
  ghost predicate Passing<D>(p: Plan<D>, l: State<D>) {
    var n := |l.host.frames|;
    && l.passed <= n <= |p.frames|
    && (l.host.inFlight.Some? ==> n > 0 && l.host.inFlight.value == n - 1 < |l.host.jobs|)
    && (l.passed < n ==> l.passed == n - 1 && l.host.inFlight == Some(l.passed) && l.passed in l.host.sends)
    && (l.host.inFlight.Some? && l.passed == n ==> n - 1 !in p.refused)
  }

  /** Nothing is lost between the session and the device, and only the query in flight is unanswered. */
  ghost predicate WayOut<D>(p: Plan<D>, l: State<D>)
    requires Framed(p)
  {
    && !l.host.closed && l.host.jobs <= p.jobs && Passing(p, l)
    && l.handled <= End(p, l.passed)
    && l.device == DeviceAfter(p.bench, p.wire.lines, l.handled)
    && l.deviceBuf + l.toDevice == Outgoing(p.wire.lines, l.handled, End(p, l.passed))
    && IndexOf(l.deviceBuf, '\n') < 0
    && (forall k :: 0 <= k < l.passed && k !in p.refused && l.handled < End(p, k + 1) && p.jobs[k].mode != NoReply ==>
          l.host.inFlight == Some(k))
  }

  /**
   * What is buffered and what is still under way make up the answer to the query in flight, no more,
   * and part of it is still under way: of a block more than its LF.
   */
  ghost predicate WayBack<D>(p: Plan<D>, l: State<D>)
    requires Framed(p) && WayOut(p, l)
  {
    if Asked(p, l) then
      && l.host.buffer + l.toHost == JobAnswer(p, |l.host.frames| - 1)
      && |l.toHost| >= if l.host.jobs[l.host.inFlight.value].mode == Block then 2 else 1
    else l.host.buffer == "" && l.toHost == ""
  }

  /** How whatever is pending settles when the session is closed. */
  predicate ByClose(outcome: Outcome) {
    outcome == Rejected(Closed) || outcome == Rejected(Lost)
  }

  predicate AsExpected<D>(p: Plan<D>, h: Host)
    requires Framed(p)
  {
    forall i :: 0 <= i < |h.settled| ==>
      && h.settled[i].id < |p.jobs|
      && (h.settled[i].outcome == p.expected[h.settled[i].id] || (h.closed && ByClose(h.settled[i].outcome)))
  }

  ghost predicate Sound<D>(p: Plan<D>, l: State<D>)
    requires Framed(p)
  {
    AsExpected(p, l.host) && (l.host.closed || (WayOut(p, l) && WayBack(p, l)))
  }

  /** The plan and the link agree on which of the frames passed so far were refused. */
  predicate Decides<D>(p: Plan<D>, l: State<D>) {
    forall k :: 0 <= k < l.passed ==> (k in p.refused <==> k in l.refused)
  }

  /** Queueing, sends and timers do not show on the wire. */
  lemma WireOnly<D>(p: Plan<D>, l: State<D>, h: Host)
    requires Framed(p) && Sound(p, l) && !l.host.closed
    requires l.host.jobs <= h.jobs <= p.jobs && h.frames == l.host.frames && h.inFlight == l.host.inFlight
    requires h.buffer == l.host.buffer && h.settled == l.host.settled && !h.closed
    requires l.passed < |h.frames| ==> l.passed in h.sends
    ensures Sound(p, l.(host := h))
  {
    hide ParseReply, OneLine, DeviceAfter, JobAnswer, Outgoing, IndexOf, Wired;
  }

  /** Starting the next job leaves its frame with the transport. */
  lemma PumpSound<D>(p: Plan<D>, l: State<D>)
    requires Framed(p) && Sound(p, l) && !l.host.closed && InOrder(l.host)
    ensures Sound(p, l.(host := Pump(l.host)))
  {
    hide ParseReply, OneLine, DeviceAfter, JobAnswer, Outgoing, IndexOf, Wired;
    var h := l.host;
    if h.inFlight.None? && h.queue != [] {
      assert h.queue[0] == |h.frames|;
      StartSound(p, l, Pump(h));
    }
  }

  lemma StartSound<D>(p: Plan<D>, l: State<D>, next: Host)
    requires Framed(p) && Sound(p, l) && !l.host.closed
    requires var n := |l.host.frames|;
             && n < |l.host.jobs| && l.host.inFlight.None? && next.inFlight == Some(n)
             && |next.frames| == n + 1 && n in next.sends
    requires next.jobs == l.host.jobs && next.buffer == l.host.buffer && next.settled == l.host.settled && !next.closed
    ensures Sound(p, l.(host := next))
  {
    hide ParseReply, OneLine, DeviceAfter, JobAnswer, Outgoing, IndexOf, Wired;
    assert WayOut(p, l.(host := next));
  }

  lemma FrameFollows<D>(p: Plan<D>, n: nat, i: nat)
    requires Framed(p) && n < |p.frames| && i <= End(p, n)
    ensures End(p, n) <= End(p, n + 1)
    ensures Outgoing(p.wire.lines, i, End(p, n + 1)) == Outgoing(p.wire.lines, i, End(p, n)) + p.frames[n]
  {
    assert Carries(p.frames, p.wire, n);
    OutgoingJoin(p.wire.lines, i, End(p, n), End(p, n + 1));
  }

  /** The transport takes the frame of the job in flight. */
  lemma TransmitSound<D>(p: Plan<D>, l: State<D>)
    requires Framed(p) && Sound(p, l) && !l.host.closed && l.passed < |l.host.frames| && l.passed !in p.refused
    requires p.frames[l.passed] == l.host.frames[l.passed]
    ensures Sound(p, l.(toDevice := l.toDevice + l.host.frames[l.passed], passed := l.passed + 1))
  {
    hide ParseReply, OneLine, DeviceAfter, JobAnswer, Outgoing, IndexOf, Wired;
    var t := l.passed;
    FrameFollows(p, t, l.handled);
    assert Placed(p, t);
    var frame := p.frames[t];
    assert l.deviceBuf + (l.toDevice + frame) == (l.deviceBuf + l.toDevice) + frame;
    var next := l.(toDevice := l.toDevice + frame, passed := t + 1);
    assert WayOut(p, next);
  }

  /** `h` is the session of `l` but for its sends and timers, with its buffer used up. */
  predicate Emptied<D>(l: State<D>, h: Host) {
    && h.jobs == l.host.jobs && h.frames == l.host.frames && h.queue == l.host.queue
    && h.inFlight == l.host.inFlight && h.settled == l.host.settled && h.closed == l.host.closed
    && h.terminator == l.host.terminator && h.buffer == ""
  }

  /** The job in flight can settle: it is refused before its frame is taken, or a write, or a query answered. */
  predicate CanSettle<D>(p: Plan<D>, l: State<D>)
    requires Framed(p) && l.host.inFlight.Some? && l.host.inFlight.value < |p.jobs| && |l.host.frames| <= |p.frames|
  {
    var id := l.host.inFlight.value;
    if id in p.refused then l.passed == id
    else l.passed == |l.host.frames| && (p.jobs[id].mode != NoReply ==> l.handled == End(p, l.passed))
  }

  /** The job in flight settles as it should, with both ways empty. */
  lemma SettleSound<D>(p: Plan<D>, l: State<D>, next: Host)
    requires Framed(p) && WayOut(p, l) && AsExpected(p, l.host) && l.host.inFlight.Some? && CanSettle(p, l)
    requires var id := l.host.inFlight.value; next.settled == l.host.settled + [Settlement(id, p.expected[id])]
    requires next.inFlight == None && next.frames == l.host.frames && next.jobs == l.host.jobs
    requires next.buffer == "" && !next.closed
    ensures Sound(p, l.(host := next, passed := |l.host.frames|, toHost := ""))
  {
    hide ParseReply, OneLine, DeviceAfter, JobAnswer, Outgoing, IndexOf, Wired;
    var n := |l.host.frames|;
    assert Placed(p, n - 1);
    assert WayOut(p, l.(host := next, passed := n, toHost := ""));
  }

  lemma FinishSound<D>(p: Plan<D>, l: State<D>, h: Host, outcome: Outcome)
    requires Framed(p) && WayOut(p, l) && AsExpected(p, l.host) && l.host.inFlight.Some? && CanSettle(p, l)
    requires Emptied(l, h) && InOrder(h) && outcome == p.expected[l.host.inFlight.value]
    ensures Sound(p, l.(host := Finish(h, outcome), passed := |l.host.frames|, toHost := ""))
  {
    hide ParseReply, OneLine, DeviceAfter, JobAnswer, Outgoing, IndexOf, Wired;
    var id := h.inFlight.value;
    var s := Settle(h.(inFlight := None, armed := h.armed - {id}), id, outcome);
    SettleSound(p, l, s);
    PumpSound(p, l.(host := s, passed := |l.host.frames|, toHost := ""));
  }

  /** What is buffered never suffices for a reply. */
  lemma BufferWaits<D>(p: Plan<D>, l: State<D>)
    requires Cooperative(p) && Sound(p, l) && !l.host.closed && l.host.inFlight.Some?
    ensures ParseReply(l.host.jobs[l.host.inFlight.value].mode, l.host.buffer) == NeedMore
  {
    hide ParseReply, WellAnswered, OutcomeOf, JobAnswer, Outgoing, DeviceAfter, IndexOf, Wired, AsExpected;
    var id := l.host.inFlight.value;
    if Asked(p, l) {
      var answer := JobAnswer(p, id);
      assert answer[..|l.host.buffer|] == l.host.buffer;
      AnswerIncomplete(p.jobs[id].mode, answer, |l.host.buffer|);
    } else {
      EmptyNeedsMore(l.host.jobs[id].mode);
    }
  }

  lemma RequestSound<D>(p: Plan<D>, l: State<D>, job: Job)
    requires Framed(p) && Sound(p, l) && !l.host.closed && InOrder(l.host) && WellFormed(l.host)
    requires l.host.jobs + [job] <= p.jobs
    ensures Sound(p, l.(host := Enqueue(l.host, job)))
  {
    hide ParseReply, OneLine, DeviceAfter, JobAnswer, Outgoing, IndexOf, Wired;
    var h := l.host.(jobs := l.host.jobs + [job], queue := l.host.queue + [|l.host.jobs|]);
    WireOnly(p, l, h);
    QueuedInOrder(l.host, job);
    PumpSound(p, l.(host := h));
  }

  lemma QueuedInOrder(h: Host, job: Job)
    requires InOrder(h) && !h.closed
    ensures InOrder(h.(jobs := h.jobs + [job], queue := h.queue + [|h.jobs|]))
  {
  }

  lemma ConfirmWriteSound<D>(p: Plan<D>, l: State<D>, id: nat)
    requires Cooperative(p) && Sound(p, l) && !l.host.closed && InOrder(l.host) && WellFormed(l.host)
    requires id in l.host.sends && id < l.passed && l.host.jobs[id].mode == NoReply && l.host.inFlight == Some(id)
    ensures Sound(p, l.(host := SendSettled(l.host, id)))
  {
    hide ParseReply, DeviceAfter, JobAnswer, Outgoing, IndexOf, Wired, Finish, Placed, WellAnswered, TryDeliver;
    assert p.expected[id] == Done;
    assert !Asked(p, l);
    FinishSound(p, l, l.host.(sends := l.host.sends - {id}), Done);
  }

  lemma ConfirmQuerySound<D>(p: Plan<D>, l: State<D>, id: nat)
    requires Cooperative(p) && Sound(p, l) && !l.host.closed && WellFormed(l.host)
    requires id in l.host.sends && id < l.passed && l.host.jobs[id].mode != NoReply
    ensures Sound(p, l.(host := SendSettled(l.host, id)))
  {
    hide ParseReply, OneLine, DeviceAfter, JobAnswer, Outgoing, IndexOf, Wired;
    var armed := ArmDeadline(l.host.(sends := l.host.sends - {id}), id);
    if l.host.inFlight.Some? {
      BufferWaits(p, l);
    }
    assert TryDeliver(armed) == armed;
    WireOnly(p, l, armed);
  }

  /** A refusal settles the job whose frame did not go out, or nothing at all. */
  lemma RefuseSound<D>(p: Plan<D>, l: State<D>, id: nat)
    requires Cooperative(p) && Sound(p, l) && !l.host.closed && InOrder(l.host) && WellFormed(l.host)
    requires Possible(l, Refuse(id)) && id < |l.host.frames| && (id == l.passed ==> id in p.refused)
    ensures Sound(p, Refusal(l, id))
  {
    hide ParseReply, DeviceAfter, JobAnswer, Outgoing, IndexOf, Wired, Finish, Placed, WellAnswered, OutcomeOf;
    var h := l.host.(sends := l.host.sends - {id});
    if id == l.passed {
      assert p.expected[id] == Rejected(SendFailed);
      assert !Asked(p, l);
      FinishSound(p, l, h, Rejected(SendFailed));
    } else {
      RefusalInVain(p, l, id);
    }
  }

  /**
   * A refused send does no harm if and only if its frame was not taken and its job is in flight, or nothing is:
   * otherwise the job in flight fails in place of another, or although the device answers it.
   */
  lemma RefusalSound<D>(p: Plan<D>, l: State<D>, id: nat)
    requires Cooperative(p) && Sound(p, l) && Valid(l.host) && id in l.host.sends
    requires id == l.passed ==> id in p.refused
    ensures Sound(p, Refusal(l, id)) <==> Refusable(l, id)
  {
    hide Framed, Sound, Refusal, Accounted, Awake;
    if l.host.closed {
      ClosedSound(p, l, Refuse(id));
    } else if Refusable(l, id) {
      RefuseSound(p, l, id);
    } else {
      RefusalHarms(p, l, id);
    }
  }

  lemma RefusalHarms<D>(p: Plan<D>, l: State<D>, id: nat)
    requires Cooperative(p) && Sound(p, l) && !l.host.closed && WellFormed(l.host) && InOrder(l.host)
    requires id in l.host.sends && !Refusable(l, id)
    ensures !Sound(p, Refusal(l, id))
  {
    hide WayBack, ParseReply, OneLine, DeviceAfter, JobAnswer, Outgoing, IndexOf, Wired, WellAnswered;
    var h := l.host.(sends := l.host.sends - {id});
    var x := h.inFlight.value;
    var next := Finish(h, Rejected(SendFailed));
    if x in p.refused {
      assert next.inFlight != Some(x);
      assert !Passing(p, Refusal(l, id));
    } else {
      ExpectsNoFailure(p, x);
      FinishSettles(h, Rejected(SendFailed));
      assert next.settled[|h.settled|] == Settlement(x, Rejected(SendFailed));
      assert !AsExpected(p, next);
    }
  }

  lemma ExpectsNoFailure<D>(p: Plan<D>, id: nat)
    requires Cooperative(p) && id < |p.jobs| && id !in p.refused
    ensures !p.expected[id].Rejected?
  {
    hide ParseReply;
    if p.jobs[id].mode != NoReply {
      ExpectsAnswer(p, id);
    }
  }

  lemma RefusalInVain<D>(p: Plan<D>, l: State<D>, id: nat)
    requires Framed(p) && Sound(p, l) && !l.host.closed && WellFormed(l.host)
    requires id in l.host.sends && l.host.inFlight.None?
    ensures Sound(p, l.(host := SendRejected(l.host, id)))
  {
    hide ParseReply, DeviceAfter, JobAnswer, Outgoing, IndexOf, Wired, Placed;
    WireOnly(p, l, l.host.(sends := l.host.sends - {id}));
  }

  /**
   * A deadline that strikes does no harm if and only if its job is no longer in flight: a timer armed for a
   * query whose reply came before its send had settled goes off in vain, one that strikes a query in flight
   * settles it with something other than its answer.
   */
  lemma DeadlineSound<D>(p: Plan<D>, l: State<D>, id: nat)
    requires Cooperative(p) && Sound(p, l) && Valid(l.host) && id in l.host.armed
    ensures Sound(p, l.(host := DeadlineFired(l.host, id))) <==> l.host.inFlight != Some(id)
  {
    hide Framed, Sound, DeadlineFired, InOrder, Accounted, Outstanding, Awake;
    if l.host.inFlight == Some(id) {
      DeadlineStrikes(p, l, id);
    } else {
      DeadlineInVain(p, l, id);
    }
  }

  lemma DeadlineInVain<D>(p: Plan<D>, l: State<D>, id: nat)
    requires Framed(p) && Sound(p, l) && WellFormed(l.host) && id in l.host.armed && l.host.inFlight != Some(id)
    ensures Sound(p, l.(host := DeadlineFired(l.host, id)))
  {
    hide ParseReply, OneLine, DeviceAfter, JobAnswer, Outgoing, IndexOf, Wired, Finish;
    if !l.host.closed {
      WireOnly(p, l, l.host.(armed := l.host.armed - {id}));
    }
  }

  lemma DeadlineStrikes<D>(p: Plan<D>, l: State<D>, id: nat)
    requires Cooperative(p) && Sound(p, l) && Valid(l.host) && id in l.host.armed && l.host.inFlight == Some(id)
    ensures !Sound(p, l.(host := DeadlineFired(l.host, id)))
  {
    hide Accounted, Awake, Finish, WayBack, ParseReply, OneLine, DeviceAfter, JobAnswer, Outgoing, IndexOf, Wired;
    ExpectsAnswer(p, id);
    var h := l.host.(armed := l.host.armed - {id});
    FinishSettles(h, Rejected(TimedOut));
    var next := Finish(h, Rejected(TimedOut));
    assert next.settled[|h.settled|] == Settlement(id, Rejected(TimedOut));
    assert !AsExpected(p, next);
  }

  /** A query's expected outcome is an answer. */
  lemma ExpectsAnswer<D>(p: Plan<D>, id: nat)
    requires Cooperative(p) && id < |p.jobs| && id !in p.refused && p.jobs[id].mode != NoReply
    ensures p.expected[id].Answered?
  {
    hide ParseReply;
    AnswerComplete(p.jobs[id].mode, JobAnswer(p, id));
  }

  /** Draining the next chunk moves the device on by whole frames, and there is a frame to move on by. */
  lemma DeviceTakes<D>(b: Bench<D>, frames: seq<Bytes>, i: nat, n: nat, buf: Bytes, chunk: Bytes, more: Bytes)
    requires i <= n <= |frames| && OneLines(frames) && chunk != ""
    requires buf + (chunk + more) == Outgoing(frames, i, n)
    ensures var d := Drain(b.dev, DeviceAfter(b, frames, i), buf + chunk);
            && i < n && i + d.lines <= n
            && d.device == DeviceAfter(b, frames, i + d.lines)
            && d.rest + more == Outgoing(frames, i + d.lines, n)
            && IndexOf(d.rest, '\n') < 0
            && d.out == Answers(b, frames, i, i + d.lines)
  {
    hide Drain, IndexOf, Answers, OneLine, DeviceAfter;
    assert (buf + chunk) + more == buf + (chunk + more);
    DrainTakesFrames(b, frames, i, n, buf + chunk, more);
    DrainLeavesNoLine(b.dev, DeviceAfter(b, frames, i), buf + chunk);
  }

  lemma DeviceWayOut<D>(p: Plan<D>, l: State<D>, count: nat)
    requires Framed(p) && WayOut(p, l) && 0 < count <= |l.toDevice| && WellFormed(l.host)
    ensures var next := Next(p.bench, l, ArriveAtDevice(count));
            && WayOut(p, next)
            && l.handled < End(p, l.passed) && l.handled <= next.handled
            && next.toHost == l.toHost + Answers(p.bench, p.wire.lines, l.handled, next.handled)
  {
    hide WellFormed, Drain, IndexOf, Outgoing, Answers, OneLines, DeviceAfter;
    var chunk, more := l.toDevice[..count], l.toDevice[count..];
    assert chunk + more == l.toDevice;
    DeviceTakes(p.bench, p.wire.lines, l.handled, End(p, l.passed), l.deviceBuf, chunk, more);
  }

  /** A query is in flight and the transport has taken its frame. */
  predicate Awaited<D>(p: Plan<D>, l: State<D>)
    requires l.host.inFlight.Some? ==> l.host.inFlight.value < |p.jobs|
  {
    l.host.inFlight.Some? && p.jobs[l.host.inFlight.value].mode != NoReply && l.passed == |l.host.frames|
  }

  lemma OwnerBefore(w: Wire, n: nat, i: nat, k: nat)
    requires Indexed(w, n) && k <= n && i < w.ends[k]
    ensures i < |w.owner| && w.owner[i] < k
  {
    assert w.ends[k] <= w.ends[n];
  }

  /** Only the line of the query in flight draws bytes. */
  lemma QuietLine<D>(p: Plan<D>, l: State<D>, i: nat)
    requires Framed(p) && WayOut(p, l) && l.handled <= i < End(p, l.passed)
    requires forall k :: 0 <= k < l.passed ==> Measured(p, k)
    ensures i < End(p, l.passed) - 1 || !Awaited(p, l) ==> Answer(p.bench, p.wire.lines, i) == ""
  {
    hide OneLine, DeviceAfter, Answer, Outgoing, IndexOf;
    var k := p.wire.owner[i];
    OwnerBefore(p.wire, |p.frames|, i, l.passed);
    assert Placed(p, k);
    assert End(p, k) <= i < End(p, k + 1);
    if p.jobs[k].mode == NoReply {
      assert Measured(p, k);
      SilentLines(p.bench, p.wire.lines, End(p, k), End(p, k + 1), i);
    }
  }

  lemma LinesThere<D>(p: Plan<D>)
    requires Framed(p)
    ensures OneLines(p.wire.lines)
  {
  }

  /** A drain draws bytes only if it takes the last line handed over. */
  lemma QuietBefore<D>(p: Plan<D>, l: State<D>)
    requires Framed(p) && WayOut(p, l) && l.handled < End(p, l.passed) && OneLines(p.wire.lines)
    requires forall k :: 0 <= k < l.passed ==> Measured(p, k)
    ensures forall i :: l.handled <= i < End(p, l.passed) - 1 ==> Answer(p.bench, p.wire.lines, i) == ""
  {
    assert l.passed <= |p.frames|;
    hide OneLine, DeviceAfter, Answer, Outgoing, IndexOf, Answers, Wired, Measured, WayOut, Framed, End;
    forall i | l.handled <= i < End(p, l.passed) - 1 ensures Answer(p.bench, p.wire.lines, i) == "" {
      QuietLine(p, l, i);
    }
  }

  /** What the device writes goes to the query in flight, if its frame was taken just now. */
  lemma DeviceWayBack<D>(p: Plan<D>, l: State<D>, next: State<D>)
    requires Framed(p) && WayOut(p, l) && WayBack(p, l) && WayOut(p, next)
    requires next.host == l.host && next.passed == l.passed
    requires l.handled < End(p, l.passed) && l.handled <= next.handled
    requires next.toHost == l.toHost + Answers(p.bench, p.wire.lines, l.handled, next.handled)
    requires forall k :: 0 <= k < l.passed ==> Measured(p, k)
    ensures WayBack(p, next)
  {
    hide OneLine, DeviceAfter, Answer, Outgoing, IndexOf, Answers, Wired;
    LinesThere(p);
    QuietBefore(p, l);
    QuietAnswers(p.bench, p.wire.lines, l.handled, next.handled, End(p, l.passed));
    QuietLine(p, l, End(p, l.passed) - 1);
    if Asked(p, next) {
      LastLine(p, l.passed - 1);
      assert Measured(p, l.passed - 1);
    }
  }

  /** The answer to a query is the answer to its one line. */
  lemma LastLine<D>(p: Plan<D>, k: nat)
    requires Framed(p) && k < |p.jobs| && p.jobs[k].mode != NoReply && k !in p.refused
    ensures End(p, k + 1) == End(p, k) + 1
    ensures JobAnswer(p, k) == Answer(p.bench, p.wire.lines, End(p, k + 1) - 1)
  {
    hide Answer;
    assert Placed(p, k);
    assert Answers(p.bench, p.wire.lines, End(p, k + 1), End(p, k + 1)) == "";
  }

  /** The length of an answer, as far as its job's mode fixes it. */
  predicate Measured<D>(p: Plan<D>, k: nat)
    requires Framed(p) && k < |p.jobs|
  {
    var size := |JobAnswer(p, k)|;
    match if k in p.refused then NoReply else p.jobs[k].mode
    case NoReply => size == 0
    case Line => size >= 1
    case Block => size >= 2
  }

  lemma CooperativeMeasured<D>(p: Plan<D>, k: nat)
    requires Cooperative(p) && k < |p.jobs|
    ensures Measured(p, k)
  {
    assert Placed(p, k);
    if k !in p.refused {
      assert WellAnswered(p.jobs[k].mode, JobAnswer(p, k));
    }
  }

  lemma DeviceSound<D>(p: Plan<D>, l: State<D>, count: nat)
    requires Cooperative(p) && Sound(p, l) && !l.host.closed && 0 < count <= |l.toDevice| && WellFormed(l.host)
    ensures Sound(p, Next(p.bench, l, ArriveAtDevice(count)))
  {
    hide Drain, JobAnswer, Measured, Outgoing, Wired, IndexOf, DeviceAfter, Answers;
    DeviceWayOut(p, l, count);
    forall k | 0 <= k < l.passed ensures Measured(p, k) {
      CooperativeMeasured(p, k);
    }
    DeviceWayBack(p, l, Next(p.bench, l, ArriveAtDevice(count)));
  }

  /** The next chunk of an answer, short of its end. */
  lemma PartSound<D>(p: Plan<D>, l: State<D>, count: nat)
    requires Cooperative(p) && Sound(p, l) && !l.host.closed && WellFormed(l.host)
    requires Possible(l, ArriveAtHost(count)) && Asked(p, l) && count < |l.toHost|
    ensures Sound(p, Delivery(l, count))
  {
    hide ParseReply, OneLine, DeviceAfter, JobAnswer, Outgoing, IndexOf, Wired, WellAnswered, OrphanLf, EncodeBlock;
    var id := l.host.inFlight.value;
    var mode := p.jobs[id].mode;
    var answer := JobAnswer(p, id);
    var h := l.host.(buffer := l.host.buffer + l.toHost[..count]);
    var k := |h.buffer|;
    AnswerSplit(l.host.buffer, l.toHost, count, answer);
    assert WellAnswered(mode, answer);
    if mode == Block {
      OrphanMeansLastByte(answer, k);
    }
    AnswerIncomplete(mode, answer, k);
    assert HandleData(l.host, l.toHost[..count]) == h;
    BufferedSound(p, l, h, count);
  }

  lemma AnswerSplit(buffer: Bytes, toHost: Bytes, count: nat, answer: Bytes)
    requires buffer + toHost == answer && count <= |toHost|
    ensures var k := |buffer| + count;
            buffer + toHost[..count] == answer[..k] && toHost[count..] == answer[k..]
  {
  }

  lemma BufferedSound<D>(p: Plan<D>, l: State<D>, h: Host, count: nat)
    requires Framed(p) && Sound(p, l) && !l.host.closed && Asked(p, l) && count < |l.toHost|
    requires h == l.host.(buffer := l.host.buffer + l.toHost[..count])
    requires l.host.jobs[l.host.inFlight.value].mode == Block ==> count + 1 < |l.toHost|
    ensures Sound(p, l.(host := h, toHost := l.toHost[count..]))
  {
    hide ParseReply, OneLine, DeviceAfter, JobAnswer, Outgoing, IndexOf, Wired;
    var next := l.(host := h, toHost := l.toHost[count..]);
    assert h.buffer + next.toHost == l.host.buffer + l.toHost;
    assert WayOut(p, next);
  }

  /** The last chunk of an answer. */
  lemma WholeSound<D>(p: Plan<D>, l: State<D>)
    requires Cooperative(p) && Sound(p, l) && !l.host.closed && InOrder(l.host) && WellFormed(l.host)
    requires Asked(p, l)
    ensures Sound(p, l.(host := HandleData(l.host, l.toHost), toHost := ""))
  {
    hide ParseReply, OneLine, DeviceAfter, JobAnswer, Outgoing, IndexOf, Wired, WellAnswered, OrphanLf, EncodeBlock;
    var id := l.host.inFlight.value;
    var answer := JobAnswer(p, id);
    var h := l.host.(buffer := l.host.buffer + l.toHost);
    assert WellAnswered(p.jobs[id].mode, answer);
    AnswerComplete(p.jobs[id].mode, answer);
    FinishSound(p, l, h.(buffer := ""), p.expected[id]);
    assert HandleData(l.host, l.toHost) == Finish(h.(buffer := ""), p.expected[id]);
  }

  /** A chunk that ends between a block and its LF delivers the block and leaves the LF to whatever is read next. */
  lemma SplitLeavesLf<D>(p: Plan<D>, l: State<D>, count: nat)
    requires Framed(p) && WayOut(p, l) && WellFormed(l.host) && 0 < count <= |l.toHost| && SplitsBlock(l, count)
    ensures !Sound(p, Delivery(l, count))
  {
    hide DeviceAfter, JobAnswer, Outgoing, IndexOf, Wired, WellAnswered, ParseLine, AsExpected;
    var buf, rest := l.host.buffer + l.toHost[..count], l.toHost[count..];
    GotStable(Block, buf, rest);
    var h := l.host.(buffer := buf);
    assert Bare(BlockHeader(buf), buf);
    CutBareThen(BlockHeader(buf), buf, rest);
    var value := ParseReply(Block, buf).value;
    assert HandleData(l.host, l.toHost[..count]) == Finish(h.(buffer := ""), Answered(value));
    NoneAskedAfter(p, Delivery(l, count), h.(buffer := ""), Answered(value));
  }

  /** After a settlement the frame of the job in flight, if there is one, has not been taken. */
  lemma NoneAskedAfter<D>(p: Plan<D>, l: State<D>, h: Host, outcome: Outcome)
    requires Framed(p) && WellFormed(h) && h.inFlight.Some? && !h.closed
    requires l.host == Finish(h, outcome) && l.passed <= |h.frames| && l.toHost != ""
    ensures !Sound(p, l)
  {
    hide DeviceAfter, JobAnswer, Outgoing, IndexOf, Wired, AsExpected;
  }

  /** A delivery keeps every answer with its query if and only if its chunk does not end between a block and its LF. */
  lemma DeliverySound<D>(p: Plan<D>, l: State<D>, count: nat)
    requires Cooperative(p) && Sound(p, l) && Valid(l.host) && 0 < count <= |l.toHost|
    ensures Sound(p, Delivery(l, count)) <==> !SplitsBlock(l, count)
  {
    hide ParseReply, OneLine, DeviceAfter, JobAnswer, Outgoing, IndexOf, Wired, WellAnswered, OrphanLf, EncodeBlock;
    if !l.host.closed {
      if SplitsBlock(l, count) {
        SplitLeavesLf(p, l, count);
      } else if count < |l.toHost| {
        PartSound(p, l, count);
      } else {
        assert l.toHost[..count] == l.toHost && l.toHost[count..] == "";
        WholeSound(p, l);
      }
    }
  }

  /** A close rejects what is pending and leaves what has settled. */
  lemma CloseSound<D>(p: Plan<D>, l: State<D>, next: Host, error: Error)
    requires Framed(p) && Sound(p, l) && Valid(l.host) && !l.host.closed && (error == Closed || error == Lost)
    requires next.closed && next.settled == l.host.settled + RejectAll(Pending(l.host), error)
    ensures Sound(p, l.(host := next))
  {
    hide WayBack;
    PendingAccepted(l.host);
  }

  // ---------------------------------------------------------------------------
  // Theorems about every run
  // ---------------------------------------------------------------------------

  /** What a link event is to the session alone, if anything. */
  function HostEvent<D>(l: State<D>, e: LinkEvent): Option<Event>
    requires WellFormed(l.host) && Possible(l, e)
  {
    match e
    case Request(job) => Some(Call(job))
    case Transmit => None
    case Confirm(id) => Some(Sent(id))
    case Refuse(id) => Some(Refused(id))
    case ArriveAtDevice(_) => None
    case ArriveAtHost(count) => Some(Data(l.toHost[..count]))
    case Deadline(id) => Some(ScpiHost.Deadline(id))
    case Hangup => Some(CloseCall)
    case Disconnect => Some(TransportEnd)
  }

  lemma HostFollows<D>(b: Bench<D>, l: State<D>, e: LinkEvent)
    requires WellFormed(l.host) && Possible(l, e)
    ensures match HostEvent(l, e)
            case None => Next(b, l, e).host == l.host
            case Some(event) => Enabled(l.host, event) && Next(b, l, e).host == Step(l.host, event)
  {
  }

  ghost predicate Healthy<D>(l: State<D>, terminator: Bytes) {
    && Valid(l.host) && Faithful(l.host) && l.host.terminator == terminator
    && forall k | k in l.refused :: k < l.passed
  }

  lemma RefusedPassed<D>(b: Bench<D>, l: State<D>, e: LinkEvent)
    requires WellFormed(l.host) && Possible(l, e) && forall k | k in l.refused :: k < l.passed
    ensures forall k | k in Next(b, l, e).refused :: k < Next(b, l, e).passed
  {
  }

  lemma NextHealthy<D>(b: Bench<D>, l: State<D>, e: LinkEvent, terminator: Bytes)
    requires Healthy(l, terminator) && Possible(l, e)
    ensures Healthy(Next(b, l, e), terminator)
    ensures l.host.jobs <= Next(b, l, e).host.jobs
  {
    HostFollows(b, l, e);
    RefusedPassed(b, l, e);
    WritesSpared(l, e);
    hide Step, Next, Possible, Valid, Faithful, SparesWrites;
    var event := HostEvent(l, e);
    if event.Some? {
      HostStays(l.host, event.value);
    }
  }

  lemma WritesSpared<D>(l: State<D>, e: LinkEvent)
    requires WellFormed(l.host) && Possible(l, e)
    ensures HostEvent(l, e).Some? ==> SparesWrites(l.host, HostEvent(l, e).value)
  {
  }

  lemma HostStays(h: Host, e: Event)
    requires Valid(h) && Faithful(h) && Enabled(h, e) && SparesWrites(h, e)
    ensures Valid(Step(h, e)) && Faithful(Step(h, e))
    ensures Step(h, e).terminator == h.terminator && h.jobs <= Step(h, e).jobs
  {
    hide Step, Faithful, InOrder, Accounted, Outstanding, Awake;
    StepValid(h, e);
    StepFaithful(h, e);
    StepKeeps(h, e);
  }

  ghost predicate LinkLegal<D>(b: Bench<D>, terminator: Bytes, trace: Trace<LinkEvent>)
    decreases trace, 0
  {
    trace.Then? ==>
      LinkLegal(b, terminator, trace.before) && Possible(LinkRun(b, terminator, trace.before), trace.event)
  }

  /** The link after a run from the moment it came up. */
  ghost function LinkRun<D>(b: Bench<D>, terminator: Bytes, trace: Trace<LinkEvent>): (l: State<D>)
    requires LinkLegal(b, terminator, trace)
    ensures Healthy(l, terminator)
    decreases trace, 1
  {
    match trace
    case Start =>
      InitialValid(terminator);
      Begin(b, terminator)
    case Then(before, event) =>
      var l := LinkRun(b, terminator, before);
      NextHealthy(b, l, event, terminator);
      Next(b, l, event)
  }

  /** Nothing settles any more once the session is closed. */
  lemma ClosedStays(h: Host, e: Event)
    requires Valid(h) && h.closed && Enabled(h, e)
    ensures Step(h, e).closed && Step(h, e).settled == h.settled
  {
  }

  lemma ClosedSound<D>(p: Plan<D>, l: State<D>, e: LinkEvent)
    requires Framed(p) && Sound(p, l) && Valid(l.host) && l.host.closed && Possible(l, e)
    ensures Sound(p, Next(p.bench, l, e))
  {
    HostFollows(p.bench, l, e);
    hide Step, Next, Valid, WayOut, WayBack;
    if HostEvent(l, e).Some? {
      ClosedStays(l.host, HostEvent(l, e).value);
    }
  }

  /** The frames of the plan are those of its jobs, but for the refused ones. */
  predicate FramesFit<D>(p: Plan<D>, terminator: Bytes) {
    p.frames == Frames(p.jobs, terminator, p.refused)
  }

  /** The frame handed over next is the plan's, as the plan has it that it is not refused. */
  lemma NextOut<D>(p: Plan<D>, l: State<D>, terminator: Bytes)
    requires Healthy(l, terminator) && l.passed < |l.host.frames| && FramesFit(p, terminator)
    requires l.host.jobs <= p.jobs && Decides(p, l.(passed := l.passed + 1))
    ensures l.passed !in p.refused && p.frames[l.passed] == l.host.frames[l.passed]
  {
    hide Frame;
    assert l.passed !in l.refused;
  }

  lemma Accepts(h: Host, job: Job)
    requires WellFormed(h) && !h.closed
    ensures Enqueue(h, job).jobs == h.jobs + [job]
  {
  }

  lemma ConfirmSound<D>(p: Plan<D>, l: State<D>, id: nat)
    requires Cooperative(p) && Sound(p, l) && Valid(l.host) && Faithful(l.host) && !l.host.closed
    requires id in l.host.sends && id < l.passed
    ensures Sound(p, l.(host := SendSettled(l.host, id)))
  {
    hide Framed, Sound, SendSettled;
    if l.host.jobs[id].mode == NoReply {
      ConfirmWriteSound(p, l, id);
    } else {
      ConfirmQuerySound(p, l, id);
    }
  }

  lemma OpenSound<D>(p: Plan<D>, l: State<D>, e: LinkEvent, terminator: Bytes)
    requires Cooperative(p) && Sound(p, l) && Healthy(l, terminator) && Possible(l, e) && !l.host.closed
    requires Next(p.bench, l, e).host.jobs <= p.jobs && Decides(p, Next(p.bench, l, e)) && FramesFit(p, terminator)
    ensures Sound(p, Next(p.bench, l, e))
  {
    hide Framed, Sound, Placed, Frames, SendSettled, SendRejected, HandleData, DeadlineFired, Pump, Drain, ParseReply;
    hide Accounted, Awake, WellAnswered, OutcomeOf, JobAnswer;
    match e
    case Request(job) => Accepts(l.host, job); RequestSound(p, l, job);
    case Transmit => NextOut(p, l, terminator); TransmitSound(p, l);
    case Confirm(id) => ConfirmSound(p, l, id);
    case Refuse(id) => RefuseSound(p, l, id);
    case ArriveAtDevice(count) => DeviceSound(p, l, count);
    case ArriveAtHost(count) => DeliverySound(p, l, count);
    case Deadline(id) => DeadlineSound(p, l, id);
    case Hangup => CloseSound(p, l, Close(l.host), Closed);
    case Disconnect => CloseSound(p, l, HandleClose(l.host), Lost);
  }

  lemma DecidesBefore<D>(p: Plan<D>, l: State<D>, e: LinkEvent)
    requires WellFormed(l.host) && Possible(l, e) && Decides(p, Next(p.bench, l, e))
    ensures Decides(p, l)
  {
  }

  lemma {:induction false} RunSound<D>(p: Plan<D>, terminator: Bytes, trace: Trace<LinkEvent>)
    requires Cooperative(p) && LinkLegal(p.bench, terminator, trace) && FramesFit(p, terminator)
    requires var l := LinkRun(p.bench, terminator, trace); l.host.jobs <= p.jobs && Decides(p, l)
    ensures Sound(p, LinkRun(p.bench, terminator, trace))
  {
    match trace
    case Start => BeginSound(p, terminator);
    case Then(before, event) =>
      hide Sound, Decides, Next, FramesFit, Possible;
      var l := LinkRun(p.bench, terminator, before);
      NextHealthy(p.bench, l, event, terminator);
      DecidesBefore(p, l, event);
      RunSound(p, terminator, before);
      if l.host.closed {
        ClosedSound(p, l, event);
      } else {
        OpenSound(p, l, event, terminator);
      }
  }

  lemma BeginSound<D>(p: Plan<D>, terminator: Bytes)
    requires Framed(p)
    ensures Sound(p, Begin(p.bench, terminator))
  {
    assert Outgoing(p.wire.lines, 0, 0) == "" && "" + "" == "";
  }

  /** The device answers each of these jobs as its mode asks, and their frames can be told apart. */
  ghost predicate Cooperates<D>(b: Bench<D>, jobs: seq<Job>, terminator: Bytes, refused: set<nat>) {
    var frames := Frames(jobs, terminator, refused);
    forall k :: 0 <= k < |jobs| && k !in refused ==>
      Fitting(jobs[k], frames[k]) && WellAnswered(jobs[k].mode, FrameAnswer(b, frames, k))
  }

  /** How job `k` should settle: with the device's own answer, unless its frame was refused. */
  function OwnOutcome<D>(b: Bench<D>, jobs: seq<Job>, terminator: Bytes, refused: set<nat>, k: nat): Outcome
    requires k < |jobs|
  {
    if k in refused then Rejected(SendFailed)
    else OutcomeOf(jobs[k].mode, FrameAnswer(b, Frames(jobs, terminator, refused), k))
  }

  /** The jobs of a run, their frames, and how each should settle. */
  function PlanOf<D>(b: Bench<D>, terminator: Bytes, jobs: seq<Job>, refused: set<nat>): Plan<D> {
    var frames := Frames(jobs, terminator, refused);
    Plan(b, jobs, refused, frames, WireOf(frames),
         seq(|jobs|, k requires 0 <= k < |jobs| => OwnOutcome(b, jobs, terminator, refused, k)))
  }

  lemma PlanIsFramed<D>(b: Bench<D>, terminator: Bytes, jobs: seq<Job>, refused: set<nat>)
    requires forall k :: 0 <= k < |jobs| && k !in refused ==> Fitting(jobs[k], Frame(jobs[k], terminator))
    ensures Framed(PlanOf(b, terminator, jobs, refused))
  {
    hide Frame, OneLine;
    var p := PlanOf(b, terminator, jobs, refused);
    assert AllEndInLf(p.frames);
    WireIsRight(p.frames);
    hide EndsInLf, WireOf;
    forall k | 0 <= k < |jobs| ensures Placed(p, k) {
      LinesTaken(p.frames, p.wire, k);
      if k !in refused && jobs[k].mode != NoReply {
        assert OneLine(p.frames[k]);
        OneLineFrame(p.frames, k);
      }
      assert k !in refused ==> Fitting(jobs[k], p.frames[k]) && p.frames[k] != "" by { NotEmpty(p.frames[k]); }
    }
  }

  lemma NotEmpty(frame: Bytes)
    ensures EndsInLf(frame) ==> frame != ""
  {
  }

  lemma PlanIsCooperative<D>(b: Bench<D>, terminator: Bytes, jobs: seq<Job>, refused: set<nat>)
    requires Cooperates(b, jobs, terminator, refused)
    ensures Framed(PlanOf(b, terminator, jobs, refused)) && Cooperative(PlanOf(b, terminator, jobs, refused))
  {
    hide Frame, WellAnswered, OutcomeOf, Wired, Fitting;
    var p := PlanOf(b, terminator, jobs, refused);
    forall k | 0 <= k < |jobs| && k !in refused ensures Fitting(jobs[k], Frame(jobs[k], terminator)) {
      assert Fitting(jobs[k], p.frames[k]);
    }
    PlanIsFramed(b, terminator, jobs, refused);
    AnswersAgree(p);
    hide JobAnswer, FrameAnswer, Framed;
    forall k | 0 <= k < |jobs| && k !in refused
      ensures WellAnswered(jobs[k].mode, JobAnswer(p, k)) && p.expected[k] == OutcomeOf(jobs[k].mode, JobAnswer(p, k))
    {
      assert JobAnswer(p, k) == FrameAnswer(b, p.frames, k);
      assert WellAnswered(jobs[k].mode, FrameAnswer(b, p.frames, k));
    }
  }

  /** Line by line or frame by frame, the answers are the same. */
  lemma AnswersAgree<D>(p: Plan<D>)
    requires Framed(p)
    ensures forall k :: 0 <= k < |p.jobs| ==> JobAnswer(p, k) == FrameAnswer(p.bench, p.frames, k)
  {
    hide Wired, FrameAnswer;
    forall k | 0 <= k < |p.jobs| ensures JobAnswer(p, k) == FrameAnswer(p.bench, p.frames, k) {
      FramesAreLines(p.bench, p.frames, p.wire, k);
    }
  }

  /**
   * Every settled job has settled with the device's own answer to it, or with a failed send if its frame was
   * refused, or was still pending when the session was closed.
   */
  predicate AnsweredByDevice<D>(b: Bench<D>, terminator: Bytes, l: State<D>) {
    var h := l.host;
    forall i :: 0 <= i < |h.settled| ==>
      && h.settled[i].id < |h.jobs|
      && (|| h.settled[i].outcome == OwnOutcome(b, h.jobs, terminator, l.refused, h.settled[i].id)
          || (h.closed && ByClose(h.settled[i].outcome)))
  }

  /** Every run is sound by the plan that its own end makes. */
  lemma PlanSound<D>(b: Bench<D>, terminator: Bytes, trace: Trace<LinkEvent>)
    requires LinkLegal(b, terminator, trace)
    requires var l := LinkRun(b, terminator, trace); Cooperates(b, l.host.jobs, terminator, l.refused)
    ensures var l := LinkRun(b, terminator, trace);
            var p := PlanOf(b, terminator, l.host.jobs, l.refused);
            Framed(p) && Cooperative(p) && Sound(p, l)
  {
    hide OwnOutcome, Framed, Sound, Cooperates, Cooperative, LinkLegal, LinkRun, Healthy, WireOf;
    var l := LinkRun(b, terminator, trace);
    PlanIsCooperative(b, terminator, l.host.jobs, l.refused);
    RunSound(PlanOf(b, terminator, l.host.jobs, l.refused), terminator, trace);
  }

  /**
   * Link correctness: whatever the interleaving and the chunking, each job that has settled has settled
   * with the device's own answer to it, taken in the order the jobs were accepted.
   */
  lemma LinkCorrectness<D>(b: Bench<D>, terminator: Bytes, trace: Trace<LinkEvent>)
    requires LinkLegal(b, terminator, trace)
    requires var l := LinkRun(b, terminator, trace); Cooperates(b, l.host.jobs, terminator, l.refused)
    ensures AnsweredByDevice(b, terminator, LinkRun(b, terminator, trace))
  {
    PlanSound(b, terminator, trace);
    hide Framed, Sound, AnsweredByDevice, Cooperates, Cooperative, LinkLegal, LinkRun, Healthy, PlanOf;
    SoundMeansAnswered(b, terminator, LinkRun(b, terminator, trace));
  }

  lemma SoundMeansAnswered<D>(b: Bench<D>, terminator: Bytes, l: State<D>)
    requires var p := PlanOf(b, terminator, l.host.jobs, l.refused); Framed(p) && Sound(p, l)
    ensures AnsweredByDevice(b, terminator, l)
  {
    hide OwnOutcome, Framed, WayOut, WayBack, WireOf, Frames;
  }

  /** The link never gets stuck: once nothing is under way and no send is outstanding, every job has settled. */
  lemma LinkProgress<D>(b: Bench<D>, terminator: Bytes, trace: Trace<LinkEvent>)
    requires LinkLegal(b, terminator, trace)
    requires var l := LinkRun(b, terminator, trace); Cooperates(b, l.host.jobs, terminator, l.refused)
    requires var l := LinkRun(b, terminator, trace);
             l.host.sends == {} && l.toDevice == "" && l.toHost == ""
    ensures var h := LinkRun(b, terminator, trace).host;
            forall id: nat :: id < |h.jobs| ==> IsSettled(h, id)
  {
    PlanSound(b, terminator, trace);
    var l := LinkRun(b, terminator, trace);
    hide Framed, Sound, Cooperates, Cooperative, LinkLegal, LinkRun, PlanOf, Faithful, Valid, IsSettled;
    NothingInFlight(PlanOf(b, terminator, l.host.jobs, l.refused), l);
  }

  lemma NothingInFlight<D>(p: Plan<D>, l: State<D>)
    requires Framed(p) && Sound(p, l) && Valid(l.host)
    requires l.host.sends == {} && l.toDevice == "" && l.toHost == ""
    ensures forall id: nat :: id < |l.host.jobs| ==> IsSettled(l.host, id)
  {
    hide IsSettled, ParseReply, Wired, JobAnswer, DeviceAfter, AsExpected;
    if !l.host.closed {
      assert l.deviceBuf + "" == l.deviceBuf;
      if l.handled < End(p, l.passed) {
        TakenLinesHaveLf(p, l.handled, End(p, l.passed));
      }
    }
    assert l.host.inFlight == None && l.host.queue == [];
  }

  lemma TakenLinesHaveLf<D>(p: Plan<D>, i: nat, n: nat)
    requires Framed(p) && i < n <= |p.wire.lines|
    ensures IndexOf(Outgoing(p.wire.lines, i, n), '\n') >= 0
  {
    OutgoingHasLf(p.wire.lines, i, n);
  }
}
