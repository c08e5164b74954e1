/**
 * The SCPI session as a state machine: what each call, promise continuation, timer and socket event
 * does to the session's state. `#pump` is split where it awaits the transport, so a reply may arrive,
 * and a deadline or a close may strike, before the send that asked for it has settled.
 */
module ScpiHost {
  import opened Common
  import opened Framing

  datatype Payload = Text(command: Bytes) | Binary(command: Bytes, data: Bytes)

  datatype Job = Job(payload: Payload, mode: ReadMode, timeoutMs: int)

  datatype Error = Closed | Lost | TimedOut | Protocol | SendFailed

  /** How a job's promise settled. `Done` is a write's `undefined`. */
  datatype Outcome = Done | Answered(value: Bytes) | Rejected(error: Error)

  datatype Settlement = Settlement(id: nat, outcome: Outcome)

  /**
   * The session. A job is named by its position among the accepted jobs. `frames` and `settled` record
   * what was handed to the transport and which promises settled, in order; `sends` holds the pumps
   * still awaiting the transport and `armed` the deadline timers that may still fire.
   */
  datatype Host = Host(
    terminator: Bytes,
    jobs: seq<Job>,
    queue: seq<nat>,
    inFlight: Option<nat>,
    buffer: Bytes,
    closed: bool,
    sends: set<nat>,
    armed: set<nat>,
    frames: seq<Bytes>,
    settled: seq<Settlement>)

  function Initial(terminator: Bytes): Host {
    Host(terminator, [], [], None, "", false, {}, {}, [], [])
  }

  function Body(job: Job): Bytes {
    match job.payload
    case Text(command) => command
    case Binary(command, data) => command + EncodeBlock(data)
  }

  function Frame(job: Job, terminator: Bytes): Bytes {
    Body(job) + terminator
  }

  /**
   * What goes out for a job: its command as it is, then the terminator, and between them the data of a binary
   * write as one block, which reads back as that data as long as it is shorter than 10^9 bytes.
   */
  predicate Conveys(frame: Bytes, job: Job, terminator: Bytes) {
    match job.payload
    case Text(command) => frame == command + terminator
    case Binary(command, data) =>
      && command <= frame
      && |command| + |data| + |terminator| <= |frame|
      && frame[|frame| - |terminator| - |data|..] == data + terminator
      && (|data| < Pow10(9) && terminator == "\n" ==> ParseBlock(frame[|command|..]) == Got(data, ""))
  }

  lemma FrameConveys(job: Job, terminator: Bytes)
    ensures Conveys(Frame(job, terminator), job, terminator)
  {
    match job.payload
    case Text(_) =>
    case Binary(command, data) =>
      hide ParseBlock, Decimal;
      var block := EncodeBlock(data);
      var frame := Frame(job, terminator);
      assert frame == command + (block + terminator);
      assert frame[|command|..] == block + terminator;
      assert block == BlockPreamble(|data|) + data;
      assert frame == (command + BlockPreamble(|data|)) + (data + terminator);
      BlockRoundTrip(data, "");
      assert block + "\n" + "" == block + "\n";
  }

  ghost predicate WellFormed(h: Host) {
    && (forall id | id in h.queue :: id < |h.jobs|)
    && (h.inFlight.Some? ==> h.inFlight.value < |h.jobs|)
    && (forall id | id in h.sends :: id < |h.jobs|)
    && (forall id | id in h.armed :: id < |h.jobs|)
  }

  function Settle(h: Host, id: nat, outcome: Outcome): Host {
    h.(settled := h.settled + [Settlement(id, outcome)])
  }

  /** The synchronous half of `#pump`: take the next job and hand its frame to the transport. */
  function Pump(h: Host): Host
    requires forall id | id in h.queue :: id < |h.jobs|
  {
    if h.inFlight.Some? || h.queue == [] || h.closed then h
    else
      var id := h.queue[0];
      assert id in h.queue;
      h.(queue := h.queue[1..],
         inFlight := Some(id),
         sends := h.sends + {id},
         frames := h.frames + [Frame(h.jobs[id], h.terminator)])
  }

  /** `#completeInFlight` and `#failInFlight`: settle the job in flight, whichever it is, and pump. */
  function Finish(h: Host, outcome: Outcome): Host
    requires forall id | id in h.queue :: id < |h.jobs|
  {
    match h.inFlight
    case None => h
    case Some(id) => Pump(Settle(h.(inFlight := None, armed := h.armed - {id}), id, outcome))
  }

  function TryDeliver(h: Host): Host
    requires WellFormed(h)
  {
    if h.inFlight.None? then h else
    match ParseReply(h.jobs[h.inFlight.value].mode, h.buffer)
    case NeedMore => h
    case Got(value, rest) => Finish(h.(buffer := rest), Answered(value))
    case Malformed => Finish(h, Rejected(Protocol))
  }

  function Enqueue(h: Host, job: Job): Host
    requires WellFormed(h)
  {
    if h.closed then h else Pump(h.(jobs := h.jobs + [job], queue := h.queue + [|h.jobs|]))
  }

  function HandleData(h: Host, chunk: Bytes): Host
    requires WellFormed(h)
  {
    if h.closed then h else TryDeliver(h.(buffer := h.buffer + chunk))
  }

  function ArmDeadline(h: Host, id: nat): Host
    requires id < |h.jobs|
  {
    if h.jobs[id].timeoutMs <= 0 then h else h.(armed := h.armed + {id})
  }

  /** The second half of `#pump`, after the transport took the frame of job `id`. */
  function SendSettled(h: Host, id: nat): Host
    requires WellFormed(h) && id in h.sends
  {
    var h := h.(sends := h.sends - {id});
    if h.jobs[id].mode == NoReply then Finish(h, Done) else TryDeliver(ArmDeadline(h, id))
  }

  /** The transport refused the frame of job `id`; whatever is in flight by now fails. */
  function SendRejected(h: Host, id: nat): Host
    requires WellFormed(h) && id in h.sends
  {
    Finish(h.(sends := h.sends - {id}), Rejected(SendFailed))
  }

  function DeadlineFired(h: Host, id: nat): Host
    requires WellFormed(h) && id in h.armed
  {
    var h := h.(armed := h.armed - {id});
    if h.inFlight == Some(id) then Finish(h, Rejected(TimedOut)) else h
  }

  function RejectAll(ids: seq<nat>, error: Error): (r: seq<Settlement>)
    ensures |r| == |ids| && forall i :: 0 <= i < |ids| ==> r[i] == Settlement(ids[i], Rejected(error))
  {
    seq(|ids|, i requires 0 <= i < |ids| => Settlement(ids[i], Rejected(error)))
  }

  function Pending(h: Host): seq<nat> {
    (if h.inFlight.Some? then [h.inFlight.value] else []) + h.queue
  }

  /** An explicit `close()`: everything pending is rejected; a deadline already armed is left running. */
  function Close(h: Host): Host {
    if h.closed then h else
    h.(closed := true, queue := [], inFlight := None, settled := h.settled + RejectAll(Pending(h), Closed))
  }

  /** The transport reported its own end: everything pending is rejected. */
  function HandleClose(h: Host): Host {
    if h.closed then h else
    h.(closed := true, queue := [], inFlight := None,
       armed := if h.inFlight.Some? then h.armed - {h.inFlight.value} else h.armed,
       settled := h.settled + RejectAll(Pending(h), Lost))
  }

  // ---------------------------------------------------------------------------
  // Runs
  // ---------------------------------------------------------------------------

  datatype Event =
    | Call(job: Job)
    | Data(chunk: Bytes)
    | Sent(id: nat)
    | Refused(id: nat)
    | Deadline(id: nat)
    | CloseCall
    | TransportEnd

  predicate Enabled(h: Host, e: Event) {
    match e
    case Sent(id) => id in h.sends
    case Refused(id) => id in h.sends
    case Deadline(id) => id in h.armed
    case _ => true
  }

  function Step(h: Host, e: Event): Host
    requires WellFormed(h) && Enabled(h, e)
  {
    match e
    case Call(job) => Enqueue(h, job)
    case Data(chunk) => HandleData(h, chunk)
    case Sent(id) => SendSettled(h, id)
    case Refused(id) => SendRejected(h, id)
    case Deadline(id) => DeadlineFired(h, id)
    case CloseCall => Close(h)
    case TransportEnd => HandleClose(h)
  }

  // ---------------------------------------------------------------------------
  // Invariant
  // ---------------------------------------------------------------------------

  ghost predicate IsSettled(h: Host, id: nat) {
    exists i :: 0 <= i < |h.settled| && h.settled[i].id == id
  }

  /** Job `id` has been handed to the transport. */
  predicate Started(h: Host, id: nat) {
    id < |h.frames|
  }

  /** The queue is the tail of the accepted jobs in order, and what went out is the head in order. */
  ghost predicate InOrder(h: Host) {
    && |h.frames| <= |h.jobs|
    && (forall i :: 0 <= i < |h.frames| ==> h.frames[i] == Frame(h.jobs[i], h.terminator))
    && (if h.closed then h.queue == [] && h.inFlight == None else |h.frames| + |h.queue| == |h.jobs|)
    && (forall i :: 0 <= i < |h.queue| ==> h.queue[i] == |h.frames| + i)
    && (h.inFlight.Some? ==> h.inFlight.value == |h.frames| - 1)
  }

  /** Every accepted job is queued, in flight or settled, never two of these, and settles once. */
  ghost predicate Accounted(h: Host) {
    && (forall i, j :: 0 <= i < j < |h.settled| ==> h.settled[i].id != h.settled[j].id)
    && (forall i :: 0 <= i < |h.settled| ==>
          h.settled[i].id < |h.jobs|)
    && (forall id: nat :: id < |h.jobs| ==> (IsSettled(h, id) <==> id !in h.queue && h.inFlight != Some(id)))
  }

  /** What the outstanding sends and timers can still touch. */
  ghost predicate Outstanding(h: Host)
    requires |h.frames| <= |h.jobs|
  {
    && (forall id | id in h.sends :: Started(h, id))
    && (forall id | id in h.armed ::
          Started(h, id) && h.jobs[id].mode != NoReply && h.jobs[id].timeoutMs > 0 && id !in h.sends)
  }

  /** A query that waits with its frame sent has its deadline running, if it has one. */
  ghost predicate Timed(h: Host)
    requires h.inFlight.Some? ==> h.inFlight.value < |h.jobs|
  {
    h.inFlight.Some? && h.inFlight.value !in h.sends && h.jobs[h.inFlight.value].timeoutMs > 0 ==>
      h.inFlight.value in h.armed
  }

  /** A query whose frame is out waits only for bytes that have not arrived. */
  ghost predicate Awake(h: Host)
    requires h.inFlight.Some? ==> h.inFlight.value < |h.jobs|
  {
    h.inFlight.Some? && h.inFlight.value !in h.sends ==>
      var mode := h.jobs[h.inFlight.value].mode;
      mode != NoReply && ParseReply(mode, h.buffer) == NeedMore
  }

  ghost predicate Valid(h: Host)
    ensures Valid(h) ==> WellFormed(h)
  {
    && InOrder(h)
    && Accounted(h)
    && Outstanding(h)
    && (!h.closed && h.queue != [] ==> h.inFlight.Some?)
    && Awake(h) && Timed(h)
  }

  lemma InitialValid(terminator: Bytes)
    ensures Valid(Initial(terminator))
  {
  }

  /** Pumping turns a session with nothing in flight into one that keeps the queue moving. */
  lemma PumpValid(h: Host)
    requires InOrder(h) && Accounted(h) && Outstanding(h) && Awake(h) && Timed(h)
    ensures Valid(Pump(h))
  {
    hide ParseReply;
    hide Frame;
    var p := Pump(h);
    if p != h {
      assert h.queue == [h.queue[0]] + p.queue;
      forall id: nat | id < |h.jobs|
        ensures IsSettled(p, id) <==> id !in p.queue && p.inFlight != Some(id)
      {
        assert IsSettled(p, id) <==> IsSettled(h, id);
        assert id in h.queue <==> id == h.queue[0] || id in p.queue;
      }
    }
  }

  /** Settling the job in flight and pumping. */
  lemma FinishValid(h: Host, outcome: Outcome)
    requires InOrder(h) && Accounted(h) && Outstanding(h)
    requires !h.closed && h.queue != [] ==> h.inFlight.Some?
    ensures Valid(Finish(h, outcome))
  {
    if h.inFlight.Some? {
      var id := h.inFlight.value;
      var s := Settle(h.(inFlight := None, armed := h.armed - {id}), id, outcome);
      assert s.settled[|h.settled|] == Settlement(id, outcome);
      assert id !in h.queue;
      forall k: nat | k < |h.jobs|
        ensures IsSettled(s, k) <==> k !in s.queue && s.inFlight != Some(k)
      {
        if IsSettled(h, k) {
          var i :| 0 <= i < |h.settled| && h.settled[i].id == k;
          assert s.settled[i].id == k;
        }
      }
      assert !IsSettled(h, id);
      PumpValid(s);
    }
  }

  lemma TryDeliverValid(h: Host)
    requires InOrder(h) && Accounted(h) && Outstanding(h)
    requires !h.closed && h.queue != [] ==> h.inFlight.Some?
    requires h.inFlight.Some? && h.jobs[h.inFlight.value].mode == NoReply ==> h.inFlight.value in h.sends
    requires Timed(h)
    ensures Valid(TryDeliver(h))
  {
    if h.inFlight.Some? {
      match ParseReply(h.jobs[h.inFlight.value].mode, h.buffer)
      case NeedMore =>
      case Got(value, rest) =>
        StateOnly(h, h.(buffer := rest));
        FinishValid(h.(buffer := rest), Answered(value));
      case Malformed => FinishValid(h, Rejected(Protocol));
    }
  }

  /** The accounting does not look at the buffer, the sends or the timers. */
  lemma StateOnly(h: Host, k: Host)
    requires Accounted(h)
    requires k.jobs == h.jobs && k.queue == h.queue && k.inFlight == h.inFlight && k.settled == h.settled
    ensures Accounted(k)
  {
    forall id: nat | id < |h.jobs| ensures IsSettled(k, id) == IsSettled(h, id) {
    }
  }

  lemma EnqueueValid(h: Host, job: Job)
    requires Valid(h)
    ensures Valid(Enqueue(h, job))
  {
    if !h.closed {
      var k := h.(jobs := h.jobs + [job], queue := h.queue + [|h.jobs|]);
      forall id: nat | id < |k.jobs|
        ensures IsSettled(k, id) <==> id !in k.queue && k.inFlight != Some(id)
      {
        assert IsSettled(k, id) == IsSettled(h, id);
        assert id in k.queue <==> id in h.queue || id == |h.jobs|;
      }
      PumpValid(k);
    }
  }

  lemma SentValid(h: Host, id: nat)
    requires Valid(h) && id in h.sends
    ensures Valid(SendSettled(h, id))
  {
    var k := h.(sends := h.sends - {id});
    StateOnly(h, k);
    if h.jobs[id].mode == NoReply {
      FinishValid(k, Done);
    } else {
      StateOnly(h, ArmDeadline(k, id));
      TryDeliverValid(ArmDeadline(k, id));
    }
  }

  lemma PendingFresh(h: Host)
    requires Valid(h) && !h.closed
    ensures var p := Pending(h);
            && (forall i, j :: 0 <= i < j < |p| ==> p[i] != p[j])
            && (forall i :: 0 <= i < |p| ==> p[i] < |h.jobs| && !IsSettled(h, p[i]))
            && (forall id: nat :: id < |h.jobs| ==> IsSettled(h, id) || id in p)
  {
    var p := Pending(h);
    forall i | 0 <= i < |p| ensures p[i] < |h.jobs| && !IsSettled(h, p[i]) {
      assert h.inFlight == Some(p[i]) || p[i] in h.queue;
    }
  }

  lemma RejectedOnce(h: Host, error: Error)
    requires Valid(h) && !h.closed
    ensures var all := h.settled + RejectAll(Pending(h), error);
            && (forall i, j :: 0 <= i < j < |all| ==> all[i].id != all[j].id)
            && (forall i :: 0 <= i < |all| ==> all[i].id < |h.jobs|)
  {
    PendingFresh(h);
    var p := Pending(h);
    var n := |h.settled|;
    var all := h.settled + RejectAll(p, error);
    hide Pending;
    forall i, j | 0 <= i < j < |all| ensures all[i].id != all[j].id {
      if i < n <= j {
        assert all[j].id == p[j - n] && h.settled[i].id == all[i].id;
      } else if n <= i {
        assert all[i].id == p[i - n] && all[j].id == p[j - n];
      }
    }
  }

  lemma SettledByRejection(h: Host, error: Error, id: nat)
    requires Valid(h) && !h.closed && id < |h.jobs|
    ensures var all := h.settled + RejectAll(Pending(h), error);
            exists i :: 0 <= i < |all| && all[i].id == id
  {
    PendingFresh(h);
    var p := Pending(h);
    var n := |h.settled|;
    var all := h.settled + RejectAll(p, error);
    hide Pending;
    if IsSettled(h, id) {
      var i :| 0 <= i < n && h.settled[i].id == id;
      assert all[i].id == id;
    } else {
      var i :| 0 <= i < |p| && p[i] == id;
      assert all[n + i].id == id;
    }
  }

  /** Rejecting everything pending settles every job, each once. */
  lemma CloseValid(h: Host, k: Host, error: Error)
    requires Valid(h) && !h.closed
    requires k == h.(closed := true, queue := [], inFlight := None, armed := k.armed,
                     settled := h.settled + RejectAll(Pending(h), error))
    requires k.armed <= h.armed
    ensures Valid(k)
  {
    RejectedOnce(h, error);
    hide RejectAll;
    hide Pending;
    forall id: nat | id < |k.jobs| ensures IsSettled(k, id) {
      var all := h.settled + RejectAll(Pending(h), error);
      SettledByRejection(h, error, id);
      var i :| 0 <= i < |all| && all[i].id == id;
      assert k.settled[i].id == id;
    }
  }

  lemma DataValid(h: Host, chunk: Bytes)
    requires Valid(h)
    ensures Valid(HandleData(h, chunk))
  {
    hide TryDeliver;
    if !h.closed {
      StateOnly(h, h.(buffer := h.buffer + chunk));
      TryDeliverValid(h.(buffer := h.buffer + chunk));
    }
  }

  lemma RefusedValid(h: Host, id: nat)
    requires Valid(h) && id in h.sends
    ensures Valid(SendRejected(h, id))
  {
    hide Finish;
    StateOnly(h, h.(sends := h.sends - {id}));
    FinishValid(h.(sends := h.sends - {id}), Rejected(SendFailed));
  }

  lemma DeadlineValid(h: Host, id: nat)
    requires Valid(h) && id in h.armed
    ensures Valid(DeadlineFired(h, id))
  {
    hide Finish;
    StateOnly(h, h.(armed := h.armed - {id}));
    if h.inFlight == Some(id) {
      FinishValid(h.(armed := h.armed - {id}), Rejected(TimedOut));
    }
  }

  lemma StepValid(h: Host, e: Event)
    requires Valid(h) && Enabled(h, e)
    ensures Valid(Step(h, e))
  {
    hide Enqueue, HandleData, SendSettled, SendRejected, DeadlineFired;
    match e
    case Call(job) => EnqueueValid(h, job);
    case Data(chunk) => DataValid(h, chunk);
    case Sent(id) => SentValid(h, id);
    case Refused(id) => RefusedValid(h, id);
    case Deadline(id) => DeadlineValid(h, id);
    case CloseCall => if !h.closed { CloseValid(h, Close(h), Closed); }
    case TransportEnd => if !h.closed { CloseValid(h, HandleClose(h), Lost); }
  }

  lemma FinishKeeps(h: Host, outcome: Outcome)
    requires WellFormed(h)
    ensures Finish(h, outcome).terminator == h.terminator && Finish(h, outcome).jobs == h.jobs
  {
  }

  lemma TryDeliverKeeps(h: Host)
    requires WellFormed(h)
    ensures TryDeliver(h).terminator == h.terminator && TryDeliver(h).jobs == h.jobs
  {
    hide ParseReply;
  }

  /** The terminator is fixed and accepted jobs are never forgotten. */
  lemma StepKeeps(h: Host, e: Event)
    requires WellFormed(h) && Enabled(h, e)
    ensures Step(h, e).terminator == h.terminator && h.jobs <= Step(h, e).jobs
  {
    hide Finish;
    hide TryDeliver;
    match e
    case Call(job) =>
    case Data(chunk) => TryDeliverKeeps(h.(buffer := h.buffer + chunk));
    case Sent(id) =>
      var k := h.(sends := h.sends - {id});
      FinishKeeps(k, Done);
      TryDeliverKeeps(ArmDeadline(k, id));
    case Refused(id) => FinishKeeps(h.(sends := h.sends - {id}), Rejected(SendFailed));
    case Deadline(id) => FinishKeeps(h.(armed := h.armed - {id}), Rejected(TimedOut));
    case _ =>
  }

  // ---------------------------------------------------------------------------
  // Theorems about every run
  // ---------------------------------------------------------------------------

  /** Each event is possible when it happens. */
  ghost predicate Legal(terminator: Bytes, trace: Trace<Event>)
    decreases trace, 0
  {
    trace.Then? ==> Legal(terminator, trace.before) && Enabled(Run(terminator, trace.before), trace.event)
  }

  /** The session after a run from its creation. */
  ghost function Run(terminator: Bytes, trace: Trace<Event>): (h: Host)
    requires Legal(terminator, trace)
    ensures Valid(h) && h.terminator == terminator
    decreases trace, 1
  {
    match trace
    case Start =>
      InitialValid(terminator);
      Initial(terminator)
    case Then(before, event) =>
      var h := Run(terminator, before);
      StepValid(h, event);
      StepKeeps(h, event);
      Step(h, event)
  }

  /**
   * Job lifecycle, in every run: each accepted job is in exactly one of the queue, in flight and
   * settled, settles once, the frames handed over convey the commands and data of the first jobs in the order
   * they were accepted, and once the session is closed nothing is left unsettled.
   */
  lemma JobLifecycle(terminator: Bytes, trace: Trace<Event>)
    requires Legal(terminator, trace)
    ensures var h := Run(terminator, trace);
            && (forall id: nat :: id < |h.jobs| ==>
                  && (IsSettled(h, id) <==> id !in h.queue && h.inFlight != Some(id))
                  && !(id in h.queue && h.inFlight == Some(id)))
            && (forall i, j :: 0 <= i < |h.settled| && 0 <= j < |h.settled| && h.settled[i].id == h.settled[j].id
                  ==> i == j)
            && |h.frames| <= |h.jobs|
            && (forall i :: 0 <= i < |h.frames| ==> Conveys(h.frames[i], h.jobs[i], terminator))
            && (h.closed ==> forall id: nat :: id < |h.jobs| ==> IsSettled(h, id))
  {
    var h := Run(terminator, trace);
    assert Valid(h);
    forall i | 0 <= i < |h.frames| ensures Conveys(h.frames[i], h.jobs[i], terminator) {
      assert h.frames[i] == Frame(h.jobs[i], terminator);
      FrameConveys(h.jobs[i], terminator);
    }
  }

  /**
   * No lost wakeup: an open session with work queued has a job in flight, and if the frame of the query
   * in flight has been sent then the buffer holds neither its reply nor a malformed one.
   */
  lemma NoLostWakeup(terminator: Bytes, trace: Trace<Event>)
    requires Legal(terminator, trace)
    ensures var h := Run(terminator, trace);
            && (!h.closed && h.queue != [] ==> h.inFlight.Some?)
            && (h.inFlight.Some? && h.inFlight.value !in h.sends ==>
                  && h.inFlight.value < |h.jobs|
                  && ParseReply(h.jobs[h.inFlight.value].mode, h.buffer) == NeedMore)
  {
    assert Valid(Run(terminator, trace));
  }

  /** In every run, of the queries that wait with their frames sent, exactly those with a timeout have a deadline. */
  lemma DeadlinesArmed(terminator: Bytes, trace: Trace<Event>)
    requires Legal(terminator, trace)
    ensures var h := Run(terminator, trace);
            h.inFlight.Some? && h.inFlight.value !in h.sends ==>
              && h.inFlight.value < |h.jobs|
              && (h.inFlight.value in h.armed <==> h.jobs[h.inFlight.value].timeoutMs > 0)
  {
    assert Valid(Run(terminator, trace));
  }

  /** What a reply in the buffer comes to for the job in flight. */
  function Replied(p: Parse): Option<Outcome> {
    match p
    case NeedMore => None
    case Got(value, _) => Some(Answered(value))
    case Malformed => Some(Rejected(Protocol))
  }

  /** How an event settles the job in flight, if it does. */
  function Verdict(h: Host, e: Event): Option<Outcome>
    requires h.inFlight.Some? && h.inFlight.value < |h.jobs|
    requires e.Sent? ==> e.id < |h.jobs|
  {
    var mode := h.jobs[h.inFlight.value].mode;
    match e
    case Call(_) => None
    case Data(chunk) => Replied(ParseReply(mode, h.buffer + chunk))
    case Sent(id) => if h.jobs[id].mode == NoReply then Some(Done) else Replied(ParseReply(mode, h.buffer))
    case Refused(_) => Some(Rejected(SendFailed))
    case Deadline(id) => if h.inFlight == Some(id) then Some(Rejected(TimedOut)) else None
    case CloseCall => Some(Rejected(Closed))
    case TransportEnd => Some(Rejected(Lost))
  }

  /** The event settled the job in flight, as its verdict says, and nothing else. */
  predicate SettlesOne(h: Host, e: Event, n: Host)
    requires e.Sent? ==> e.id < |h.jobs|
  {
    n.settled ==
    if h.inFlight.Some? && h.inFlight.value < |h.jobs| && Verdict(h, e).Some?
    then h.settled + [Settlement(h.inFlight.value, Verdict(h, e).value)]
    else h.settled
  }

  /** The event settled whatever was pending, in order, with this error. */
  predicate SettlesAll(h: Host, error: Error, n: Host) {
    && |n.settled| == |h.settled| + |Pending(h)| && h.settled <= n.settled
    && forall i :: 0 <= i < |Pending(h)| ==> n.settled[|h.settled| + i] == Settlement(Pending(h)[i], Rejected(error))
  }

  /**
   * Who settles at an event and how: at a close everything pending, with its error; at any other event only the
   * job in flight, and as the event has it.
   */
  lemma WhatSettles(h: Host, e: Event)
    requires Valid(h) && Enabled(h, e)
    ensures match e
            case CloseCall => SettlesAll(h, Closed, Step(h, e))
            case TransportEnd => SettlesAll(h, Lost, Step(h, e))
            case _ => SettlesOne(h, e, Step(h, e))
  {
    assert InOrder(h) && WellFormed(h);
    assert h.closed ==> h.inFlight.None? && h.queue == [];
    hide Valid, InOrder, Verdict, Pending, SettlesOne, SettlesAll;
    hide HandleData, SendSettled, SendRejected, DeadlineFired, Enqueue, Close, HandleClose;
    match e
    case Call(_) => CallSettles(h, e);
    case Data(_) => ReplySettles(h, e);
    case Sent(_) => ReplySettles(h, e);
    case Refused(_) => FailureSettles(h, e);
    case Deadline(_) => FailureSettles(h, e);
    case CloseCall => CloseSettles(h);
    case TransportEnd => CloseSettles(h);
  }

  lemma CallSettles(h: Host, e: Event)
    requires WellFormed(h) && e.Call?
    ensures SettlesOne(h, e, Step(h, e))
  {
  }

  lemma ReplySettles(h: Host, e: Event)
    requires WellFormed(h) && Enabled(h, e) && (e.Data? || e.Sent?) && (h.closed ==> h.inFlight.None?)
    ensures SettlesOne(h, e, Step(h, e))
  {
    hide ParseReply, Frame;
  }

  lemma FailureSettles(h: Host, e: Event)
    requires WellFormed(h) && Enabled(h, e) && (e.Refused? || e.Deadline?)
    ensures SettlesOne(h, e, Step(h, e))
  {
    hide Frame;
  }

  lemma CloseSettles(h: Host)
    requires h.closed ==> h.inFlight.None? && h.queue == []
    ensures SettlesAll(h, Closed, Close(h)) && SettlesAll(h, Lost, HandleClose(h))
  {
  }

  /**
   * A job that settles takes its deadline along, so that it cannot strike later; only an explicit close leaves the
   * timers as they are.
   */
  lemma TimersCleared(h: Host, e: Event)
    requires Valid(h) && Enabled(h, e) && h.inFlight.Some?
    ensures Verdict(h, e).Some? && !e.CloseCall? ==> h.inFlight.value !in Step(h, e).armed
    ensures e.CloseCall? ==> Step(h, e).armed == h.armed
  {
    hide ParseReply, Frame, Accounted, Awake, Timed;
    PumpKeepsTimers(h);
  }

  lemma PumpKeepsTimers(h: Host)
    requires forall id | id in h.queue :: id < |h.jobs|
    ensures Pump(h).armed == h.armed
  {
  }

  /** The buffer keeps what has arrived, less the reply that is taken off its front. */
  lemma BufferKeeps(h: Host, chunk: Bytes)
    requires WellFormed(h) && !h.closed
    ensures var all := h.buffer + chunk;
            HandleData(h, chunk).buffer ==
            if h.inFlight.Some? && ParseReply(h.jobs[h.inFlight.value].mode, all).Got?
            then ParseReply(h.jobs[h.inFlight.value].mode, all).rest else all
  {
    hide ParseReply;
  }

  // ---------------------------------------------------------------------------
  // Outcomes of the right kind, and what spoils them
  // ---------------------------------------------------------------------------

  /** An outcome a job of this mode may have: a write is never answered, a query never just done. */
  predicate Fits(mode: ReadMode, outcome: Outcome) {
    match outcome
    case Done => mode == NoReply
    case Answered(_) => mode != NoReply
    case Rejected(_) => true
  }

  /** Every job has settled in its kind. */
  ghost predicate KindsFit(h: Host) {
    forall i :: 0 <= i < |h.settled| ==>
      && h.settled[i].id < |h.jobs|
      && Fits(h.jobs[h.settled[i].id].mode, h.settled[i].outcome)
  }

  /** The send of a write settles while a query is in flight, and the query is completed in its place. */
  predicate MixesKinds(h: Host, e: Event)
    requires h.inFlight.Some? ==> h.inFlight.value < |h.jobs|
    requires e.Sent? ==> e.id < |h.jobs|
  {
    && e.Sent? && h.jobs[e.id].mode == NoReply
    && h.inFlight.Some? && h.jobs[h.inFlight.value].mode != NoReply
  }

  lemma FinishFits(h: Host, outcome: Outcome)
    requires WellFormed(h) && KindsFit(h)
    ensures KindsFit(Finish(h, outcome)) <==>
            (h.inFlight.Some? ==> Fits(h.jobs[h.inFlight.value].mode, outcome))
  {
    if h.inFlight.Some? {
      FinishSettles(h, outcome);
      var n := |h.settled|;
      assert Finish(h, outcome).settled[n] == Settlement(h.inFlight.value, outcome);
    }
  }

  lemma FinishSettles(h: Host, outcome: Outcome)
    requires WellFormed(h) && h.inFlight.Some?
    ensures Finish(h, outcome).settled == h.settled + [Settlement(h.inFlight.value, outcome)]
    ensures Finish(h, outcome).jobs == h.jobs
  {
  }

  lemma TryDeliverFits(h: Host)
    requires WellFormed(h) && KindsFit(h)
    ensures KindsFit(TryDeliver(h))
  {
    hide Finish;
    if h.inFlight.Some? {
      match ParseReply(h.jobs[h.inFlight.value].mode, h.buffer)
      case NeedMore =>
      case Got(value, rest) => FinishFits(h.(buffer := rest), Answered(value));
      case Malformed => FinishFits(h, Rejected(Protocol));
    }
  }

  lemma EnqueueFits(h: Host, job: Job)
    requires WellFormed(h) && KindsFit(h)
    ensures KindsFit(Enqueue(h, job))
  {
  }

  lemma PendingAccepted(h: Host)
    requires WellFormed(h)
    ensures forall i | 0 <= i < |Pending(h)| :: Pending(h)[i] < |h.jobs|
  {
    forall i | 0 <= i < |Pending(h)| ensures Pending(h)[i] < |h.jobs| {
      assert h.inFlight == Some(Pending(h)[i]) || Pending(h)[i] in h.queue;
    }
  }

  lemma CloseFits(h: Host, error: Error)
    requires WellFormed(h) && KindsFit(h)
    ensures KindsFit(h.(settled := h.settled + RejectAll(Pending(h), error)))
  {
    PendingAccepted(h);
  }

  /**
   * One step keeps every outcome in its kind exactly when it is not the send of a write settling with a query in
   * flight. A refusal alone never mixes kinds: it rejects.
   */
  lemma StepFits(h: Host, e: Event)
    requires Valid(h) && KindsFit(h) && Enabled(h, e)
    ensures KindsFit(Step(h, e)) <==> !MixesKinds(h, e)
  {
    hide Enqueue, TryDeliver, Finish, RejectAll, Pending, InOrder, Accounted, Outstanding, Awake;
    match e
    case Call(job) => EnqueueFits(h, job);
    case Data(chunk) => if !h.closed { TryDeliverFits(h.(buffer := h.buffer + chunk)); }
    case Sent(id) =>
      var k := h.(sends := h.sends - {id});
      if h.jobs[id].mode == NoReply {
        FinishFits(k, Done);
      } else {
        TryDeliverFits(ArmDeadline(k, id));
      }
    case Refused(id) => FinishFits(h.(sends := h.sends - {id}), Rejected(SendFailed));
    case Deadline(id) =>
      if h.inFlight == Some(id) {
        FinishFits(h.(armed := h.armed - {id}), Rejected(TimedOut));
      }
    case CloseCall => CloseFits(h, Closed);
    case TransportEnd => CloseFits(h, Lost);
  }

  lemma TryDeliverAppends(h: Host)
    requires WellFormed(h)
    ensures h.settled <= TryDeliver(h).settled
  {
    hide ParseReply;
  }

  /** What has settled stays settled, as it was. */
  lemma StepAppends(h: Host, e: Event)
    requires WellFormed(h) && Enabled(h, e)
    ensures h.settled <= Step(h, e).settled
  {
    hide TryDeliver;
    match e
    case Data(chunk) => TryDeliverAppends(h.(buffer := h.buffer + chunk));
    case Sent(id) => TryDeliverAppends(ArmDeadline(h.(sends := h.sends - {id}), id));
    case _ =>
  }

  lemma MisfitStays(h: Host, e: Event)
    requires Valid(h) && Enabled(h, e) && KindsFit(Step(h, e))
    ensures KindsFit(h)
  {
    hide Step, InOrder, Outstanding, Awake;
    StepAppends(h, e);
    StepKeeps(h, e);
    forall i | 0 <= i < |h.settled|
      ensures h.settled[i].id < |h.jobs| && Fits(h.jobs[h.settled[i].id].mode, h.settled[i].outcome)
    {
      assert Step(h, e).settled[i] == h.settled[i];
    }
  }

  /** In no step of a run does the send of a write settle with a query in flight. */
  ghost predicate NeverMixes(terminator: Bytes, trace: Trace<Event>)
    requires Legal(terminator, trace)
  {
    trace.Then? ==>
      NeverMixes(terminator, trace.before) && !MixesKinds(Run(terminator, trace.before), trace.event)
  }

  /**
   * Writes settle as writes and queries as queries in a run if and only if no send of a write settles while a
   * query is in flight.
   */
  lemma {:induction false} OutcomesFit(terminator: Bytes, trace: Trace<Event>)
    requires Legal(terminator, trace)
    ensures KindsFit(Run(terminator, trace)) <==> NeverMixes(terminator, trace)
  {
    hide Valid, KindsFit, MixesKinds, Step;
    match trace
    case Start => NoneSettled(terminator);
    case Then(before, event) =>
      OutcomesFit(terminator, before);
      var h := Run(terminator, before);
      if KindsFit(h) {
        StepFits(h, event);
      } else if KindsFit(Step(h, event)) {
        MisfitStays(h, event);
      }
  }

  lemma NoneSettled(terminator: Bytes)
    ensures KindsFit(Initial(terminator))
  {
  }

  // ---------------------------------------------------------------------------
  // Refusals
  // ---------------------------------------------------------------------------

  /** A write whose send is outstanding is still in flight: nothing has settled it in the meantime. */
  ghost predicate Faithful(h: Host) {
    forall id | id in h.sends ::
      id < |h.jobs| && (h.jobs[id].mode == NoReply && !h.closed ==> h.inFlight == Some(id))
  }

  /** A refused frame does not fail another job's write: the job in flight is its own, or a query, or there is none. */
  predicate SparesWrites(h: Host, e: Event)
    requires h.inFlight.Some? ==> h.inFlight.value < |h.jobs|
  {
    e.Refused? ==> h.inFlight.None? || h.inFlight == Some(e.id) || h.jobs[h.inFlight.value].mode != NoReply
  }

  lemma FinishFaithful(h: Host, outcome: Outcome)
    requires WellFormed(h) && Faithful(h)
    requires h.inFlight.Some? && h.jobs[h.inFlight.value].mode == NoReply ==> h.inFlight.value !in h.sends
    ensures Faithful(Finish(h, outcome))
  {
    if h.inFlight.Some? && h.queue != [] {
      assert h.queue[0] in h.queue;
    }
  }

  lemma TryDeliverFaithful(h: Host)
    requires WellFormed(h) && Faithful(h)
    ensures Faithful(TryDeliver(h))
  {
    if h.inFlight.Some? {
      match ParseReply(h.jobs[h.inFlight.value].mode, h.buffer)
      case NeedMore =>
      case Got(value, rest) => FinishFaithful(h.(buffer := rest), Answered(value));
      case Malformed => FinishFaithful(h, Rejected(Protocol));
    }
  }

  lemma OtherFaithful(h: Host, e: Event)
    requires WellFormed(h) && Faithful(h) && Enabled(h, e) && !e.Refused?
    requires h.closed ==> h.inFlight == None
    requires forall id | id in h.armed :: h.jobs[id].mode != NoReply && id !in h.sends
    ensures Faithful(Step(h, e))
  {
    hide Enqueue;
    hide TryDeliver;
    hide Finish;
    match e
    case Call(job) => PumpFaithful(h, job);
    case Data(chunk) => if !h.closed { TryDeliverFaithful(h.(buffer := h.buffer + chunk)); }
    case Sent(id) =>
      var k := h.(sends := h.sends - {id});
      if h.jobs[id].mode == NoReply {
        FinishFaithful(k, Done);
      } else {
        TryDeliverFaithful(ArmDeadline(k, id));
      }
    case Deadline(id) =>
      if h.inFlight == Some(id) {
        FinishFaithful(h.(armed := h.armed - {id}), Rejected(TimedOut));
      }
    case CloseCall =>
    case TransportEnd =>
  }

  /** A refusal in the way of another job's write leaves that write settled while its send is outstanding. */
  lemma RefusalFaithful(h: Host, id: nat)
    requires Valid(h) && Faithful(h) && id in h.sends
    ensures Faithful(SendRejected(h, id)) <==> SparesWrites(h, Refused(id))
  {
    var k := h.(sends := h.sends - {id});
    if SparesWrites(h, Refused(id)) {
      FinishFaithful(k, Rejected(SendFailed));
    } else {
      assert Awake(h);
      assert h.inFlight.value in k.sends;
      StaysOutstanding(k, Rejected(SendFailed));
    }
  }

  lemma StaysOutstanding(h: Host, outcome: Outcome)
    requires WellFormed(h) && !h.closed && h.inFlight.Some? && h.inFlight.value in h.sends
    requires h.jobs[h.inFlight.value].mode == NoReply && h.inFlight.value !in h.queue
    ensures !Faithful(Finish(h, outcome))
  {
    assert h.queue != [] ==> h.queue[0] in h.queue;
    assert h.inFlight.value in Finish(h, outcome).sends;
  }

  /**
   * One step fails no write in the place of another job, leaving it settled with its own send outstanding,
   * exactly when it is not a refusal that comes while another job's write is in flight.
   */
  lemma StepFaithful(h: Host, e: Event)
    requires Valid(h) && Faithful(h) && Enabled(h, e)
    ensures Faithful(Step(h, e)) <==> SparesWrites(h, e)
  {
    if e.Refused? {
      RefusalFaithful(h, e.id);
    } else {
      OtherFaithful(h, e);
    }
  }

  lemma PumpFaithful(h: Host, job: Job)
    requires WellFormed(h) && Faithful(h)
    ensures Faithful(Enqueue(h, job))
  {
    assert h.queue != [] ==> h.queue[0] in h.queue;
  }

  /** Every refusal of a run spares the writes of other jobs. */
  ghost predicate AllSpareWrites(terminator: Bytes, trace: Trace<Event>)
    requires Legal(terminator, trace)
  {
    trace.Then? ==>
      AllSpareWrites(terminator, trace.before) && SparesWrites(Run(terminator, trace.before), trace.event)
  }

  /** At no point of a run has a write settled with its send outstanding. */
  ghost predicate FaithfulThroughout(terminator: Bytes, trace: Trace<Event>)
    requires Legal(terminator, trace)
  {
    Faithful(Run(terminator, trace)) && (trace.Then? ==> FaithfulThroughout(terminator, trace.before))
  }

  /**
   * In a run no write is ever failed in the place of another job if and only if every refusal comes while its
   * own job, a query or nothing is in flight.
   */
  lemma {:induction false} WritesAreSpared(terminator: Bytes, trace: Trace<Event>)
    requires Legal(terminator, trace)
    ensures FaithfulThroughout(terminator, trace) <==> AllSpareWrites(terminator, trace)
  {
    match trace
    case Start =>
    case Then(before, event) =>
      WritesAreSpared(terminator, before);
      if FaithfulThroughout(terminator, before) {
        StepFaithful(Run(terminator, before), event);
      }
  }

  /** A refusal in the way of another job's write is the only way into a mixed-up outcome. */
  lemma {:induction false} SparedRunsFit(terminator: Bytes, trace: Trace<Event>)
    requires Legal(terminator, trace) && AllSpareWrites(terminator, trace)
    ensures KindsFit(Run(terminator, trace))
  {
    WritesAreSpared(terminator, trace);
    SparedNeverMixes(terminator, trace);
    OutcomesFit(terminator, trace);
  }

  lemma {:induction false} SparedNeverMixes(terminator: Bytes, trace: Trace<Event>)
    requires Legal(terminator, trace) && FaithfulThroughout(terminator, trace)
    ensures NeverMixes(terminator, trace)
  {
    match trace
    case Start =>
    case Then(before, event) =>
      SparedNeverMixes(terminator, before);
      assert Valid(Run(terminator, before)) && Faithful(Run(terminator, before));
  }

  /** Nothing is pending and nothing is buffered. */
  predicate Idle(h: Host) {
    !h.closed && h.inFlight.None? && h.queue == [] && h.buffer == ""
  }

  lemma QuerySent(h: Host, query: Job)
    requires WellFormed(h) && Idle(h) && query.mode == Line && query.timeoutMs > 0 && |h.jobs| !in h.sends
    ensures var n := |h.jobs|;
            var h1 := Enqueue(h, query);
            && WellFormed(h1) && n in h1.sends
            && var h2 := SendSettled(h1, n);
            && WellFormed(h2) && n in h2.armed && h2.inFlight == Some(n) && h2.queue == [] && h2.buffer == ""
            && !h2.closed && h2.settled == h.settled && |h2.jobs| == n + 1
  {
  }

  lemma QueryTimesOut(h: Host, n: nat)
    requires WellFormed(h) && n in h.armed && h.inFlight == Some(n) && h.queue == [] && h.buffer == "" && !h.closed
    ensures var k := DeadlineFired(h, n);
            Idle(k) && k.jobs == h.jobs && k.settled == h.settled + [Settlement(n, Rejected(TimedOut))]
  {
  }

  lemma QueryTakesLine(h: Host, n: nat, reply: Bytes)
    requires WellFormed(h) && h.inFlight == Some(n) && h.jobs[n].mode == Line && h.buffer == "" && !h.closed
    requires forall i :: 0 <= i < |reply| ==> reply[i] != '\n'
    ensures var k := Finish(h, Answered(TrimCr(reply)));
            HandleData(h, reply + "\n") == k
  {
    ParseWholeLine(reply, "");
    assert "" + (reply + "\n") == reply + "\n" + "";
    assert h.(buffer := reply + "\n").(buffer := "") == h;
  }

  /**
   * A query that timed out leaves its late reply behind: from any idle session, whatever line arrives
   * then, the next query takes it for its own.
   */
  lemma LateReplyGoesToNextQuery(h: Host, first: Job, second: Job, reply: Bytes)
    requires Valid(h) && Idle(h)
    requires first.mode == Line && second.mode == Line && first.timeoutMs > 0
    requires forall i :: 0 <= i < |reply| ==> reply[i] != '\n'
    ensures var n := |h.jobs|;
            var h1 := Enqueue(h, first);
            && WellFormed(h1) && n in h1.sends
            && var h2 := SendSettled(h1, n);
            && WellFormed(h2) && n in h2.armed
            && var h3 := DeadlineFired(h2, n);
            && WellFormed(h3)
            && var h4 := Enqueue(h3, second);
            && WellFormed(h4)
            && HandleData(h4, reply + "\n").settled == h.settled
               + [Settlement(n, Rejected(TimedOut)), Settlement(n + 1, Answered(TrimCr(reply)))]
  {
    var n := |h.jobs|;
    QuerySent(h, first);
    var h2 := SendSettled(Enqueue(h, first), n);
    QueryTimesOut(h2, n);
    var h3 := DeadlineFired(h2, n);
    assert WellFormed(h3);
    QueryTakesLine(Enqueue(h3, second), n + 1, reply);
  }

  /** Three jobs are accepted by a fresh session before any send has settled. */
  function ThreeCalls(a: Job, b: Job, c: Job): Trace<Event> {
    Then(Then(Then(Start, Call(a)), Call(b)), Call(c))
  }

  lemma ThreeAccepted(terminator: Bytes, a: Job, b: Job, c: Job)
    ensures Legal(terminator, ThreeCalls(a, b, c))
    ensures var h := Run(terminator, ThreeCalls(a, b, c));
            && h.jobs == [a, b, c] && h.inFlight == Some(0) && h.queue == [1, 2] && h.buffer == ""
            && !h.closed && h.sends == {0} && h.settled == []
  {
    var one := Then(Start, Call(a));
    var two := Then(one, Call(b));
    assert Run(terminator, Start) == Initial(terminator);
    assert Run(terminator, one) == Enqueue(Initial(terminator), a);
    var h1 := Run(terminator, one);
    assert h1.jobs == [a] && h1.inFlight == Some(0) && h1.queue == [];
    assert Run(terminator, two) == Enqueue(h1, b);
  }

  /** A query, a write and a query are asked, and the first is answered before its send settles. */
  function AnsweredEarly(query: Job, write: Job, last: Job, reply: Bytes): Trace<Event> {
    Then(ThreeCalls(query, write, last), Data(reply + "\n"))
  }

  /**
   * A run that breaks both conditions: the transport refuses the send of a query that has been answered. The
   * write in flight by then fails in its place, with every outcome still in its kind; when the write's own
   * frame goes out, the last query settles as a write.
   */
  lemma StrayRefusal(terminator: Bytes, query: Job, write: Job, last: Job, reply: Bytes)
    requires query.mode == Line && write.mode == NoReply && last.mode != NoReply
    requires forall i :: 0 <= i < |reply| ==> reply[i] != '\n'
    ensures var answered := AnsweredEarly(query, write, last, reply);
            var trace := Then(Then(answered, Refused(0)), Sent(1));
            && Legal(terminator, answered) && !SparesWrites(Run(terminator, answered), Refused(0))
            && Legal(terminator, Then(answered, Refused(0))) && Legal(terminator, trace)
            && KindsFit(Run(terminator, Then(answered, Refused(0))))
            && Run(terminator, trace).settled ==
               [Settlement(0, Answered(TrimCr(reply))), Settlement(1, Rejected(SendFailed)), Settlement(2, Done)]
            && !KindsFit(Run(terminator, trace))
  {
    AnsweredBeforeSent(terminator, query, write, last, reply);
    hide TryDeliver, Pump, Frame, Valid, Legal, Run, AnsweredEarly, TrimCr, SendRejected, SendSettled, KindsFit;
    hide SparesWrites;
    var answered := AnsweredEarly(query, write, last, reply);
    StrayEnd(Run(terminator, answered), Answered(TrimCr(reply)));
    RunThen(terminator, answered, Refused(0));
    RunThen(terminator, Then(answered, Refused(0)), Sent(1));
  }

  lemma StrayEnd(h: Host, first: Outcome)
    requires WellFormed(h) && !h.closed && h.inFlight == Some(1) && h.queue == [2] && |h.jobs| == 3
    requires h.sends == {0, 1} && h.jobs[1].mode == NoReply && h.jobs[2].mode != NoReply
    requires h.settled == [Settlement(0, first)] && Fits(h.jobs[0].mode, first)
    ensures !SparesWrites(h, Refused(0))
    ensures var k := SendRejected(h, 0);
            && WellFormed(k) && KindsFit(k) && 1 in k.sends && !KindsFit(SendSettled(k, 1))
            && SendSettled(k, 1).settled ==
               [Settlement(0, first), Settlement(1, Rejected(SendFailed)), Settlement(2, Done)]
  {
    WriteFailsForQuery(h);
    FinishFits(h.(sends := h.sends - {0}), Rejected(SendFailed));
    hide SendSettled, KindsFit;
    Misfit(SendSettled(SendRejected(h, 0), 1), 2);
  }

  lemma Misfit(h: Host, i: nat)
    requires i < |h.settled| && h.settled[i].id < |h.jobs|
    requires h.settled[i].outcome == Done && h.jobs[h.settled[i].id].mode != NoReply
    ensures !KindsFit(h)
  {
  }

  lemma RunThen(terminator: Bytes, before: Trace<Event>, e: Event)
    requires Legal(terminator, before) && Enabled(Run(terminator, before), e)
    ensures Legal(terminator, Then(before, e))
    ensures Run(terminator, Then(before, e)) == Step(Run(terminator, before), e)
  {
  }

  lemma AnsweredBeforeSent(terminator: Bytes, query: Job, write: Job, last: Job, reply: Bytes)
    requires query.mode == Line && forall i :: 0 <= i < |reply| ==> reply[i] != '\n'
    ensures var answered := AnsweredEarly(query, write, last, reply);
            && Legal(terminator, answered)
            && var h := Run(terminator, answered);
            && h.jobs == [query, write, last] && h.inFlight == Some(1) && h.queue == [2] && h.sends == {0, 1}
            && !h.closed && h.settled == [Settlement(0, Answered(TrimCr(reply)))]
  {
    ThreeAccepted(terminator, query, write, last);
    hide Pump, Frame, Finish, ThreeCalls;
    var asked := ThreeCalls(query, write, last);
    RunThen(terminator, asked, Data(reply + "\n"));
    QueryTakesLine(Run(terminator, asked), 0, reply);
    WriteGoesOut(Run(terminator, asked), Answered(TrimCr(reply)));
  }

  lemma WriteGoesOut(h: Host, outcome: Outcome)
    requires WellFormed(h) && !h.closed && h.inFlight == Some(0) && h.queue == [1, 2] && h.sends == {0}
    ensures var k := Finish(h, outcome);
            && k.jobs == h.jobs && k.inFlight == Some(1) && k.queue == [2] && k.sends == {0, 1} && !k.closed
            && k.settled == h.settled + [Settlement(0, outcome)]
  {
  }

  lemma WriteFailsForQuery(h: Host)
    requires WellFormed(h) && !h.closed && h.inFlight == Some(1) && h.queue == [2] && |h.jobs| == 3
    requires h.sends == {0, 1} && h.jobs[1].mode == NoReply && h.jobs[2].mode != NoReply
    ensures var k := SendRejected(h, 0);
            && WellFormed(k) && 1 in k.sends
            && SendSettled(k, 1).jobs == h.jobs
            && SendSettled(k, 1).settled == h.settled + [Settlement(1, Rejected(SendFailed)), Settlement(2, Done)]
  {
  }
}
