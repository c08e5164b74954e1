/** The simulator's error queue and the loop that drains it row by row. */
module ErrorQueues {
  import opened Framing
  import opened ErrorRows

  /** What `SYST:ERR?` answers and leaves: the oldest row, or the sentinel when there is none. */
  function ReadRow(queue: seq<ErrorItem>): (Bytes, seq<ErrorItem>) {
    if queue == [] then (SENTINEL, []) else (PrintRow(queue[0]), queue[1..])
  }

  /** What the reader makes of a row once it has been printed. */
  function Reread(e: ErrorItem): ParsedRow {
    ParseSystErrLine(PrintRow(e))
  }

  /** The rows a drain returns and what it leaves queued. */
  datatype DrainResult = DrainResult(rows: seq<ErrorItem>, left: seq<ErrorItem>)

  function AddRow(item: ErrorItem, d: DrainResult): DrainResult {
    DrainResult([item] + d.rows, d.left)
  }

  /** Errors that reach the queue just before each query. */
  function Arrive(queue: seq<ErrorItem>, arrivals: seq<seq<ErrorItem>>): seq<ErrorItem> {
    if arrivals == [] then queue else queue + arrivals[0]
  }

  function Later(arrivals: seq<seq<ErrorItem>>): seq<seq<ErrorItem>> {
    if arrivals == [] then [] else arrivals[1..]
  }

  /** At most `budget` queries through a reader, stopping at the sentinel. */
  function DrainFrom(read: ErrorItem -> ParsedRow, queue: seq<ErrorItem>, arrivals: seq<seq<ErrorItem>>, budget: nat)
    : DrainResult
    decreases budget
  {
    var q := Arrive(queue, arrivals);
    if budget == 0 then DrainResult([], queue)
    else if q == [] then DrainResult([], [])
    else
      match read(q[0])
      case QueueEmpty => DrainResult([], q[1..])
      case Row(item) => AddRow(item, DrainFrom(read, q[1..], Later(arrivals), budget - 1))
  }

  /** Everything that arrives before the first `k` queries. */
  function Arrived(arrivals: seq<seq<ErrorItem>>, k: nat): seq<ErrorItem> {
    if k == 0 || arrivals == [] then [] else arrivals[0] + Arrived(arrivals[1..], k - 1)
  }

  /** How many queries a drain that returned `count` rows has started. */
  function Queries(count: nat, budget: nat): nat {
    if count < budget then count + 1 else budget
  }

  /**
   * `d` is what draining `all` gives: the oldest rows, in order, up to the budget, the end of the queue or
   * the first row that reads as empty, which is lost; the rest stays queued.
   */
  ghost predicate Drained(read: ErrorItem -> ParsedRow, all: seq<ErrorItem>, budget: nat, d: DrainResult) {
    var k := |d.rows|;
    && k <= |all| && k <= budget
    && (forall i :: 0 <= i < k ==> read(all[i]) == Row(d.rows[i]))
    && (if k < budget && k < |all| then read(all[k]).QueueEmpty? && d.left == all[k + 1..] else d.left == all[k..])
  }

  /**
   * Draining is FIFO, for any reader and whatever is queued or pushed meanwhile, and loses only the row it
   * stops at.
   */
  lemma {:induction false} DrainFifo(read: ErrorItem -> ParsedRow, queue: seq<ErrorItem>,
                                     arrivals: seq<seq<ErrorItem>>, budget: nat)
    ensures var d := DrainFrom(read, queue, arrivals, budget);
            Drained(read, queue + Arrived(arrivals, Queries(|d.rows|, budget)), budget, d)
    decreases budget
  {
    hide Drained, Arrive, Arrived, Later;
    var q := Arrive(queue, arrivals);
    if budget == 0 {
      NothingArrives(queue, arrivals);
      DrainedNone(read, queue, 0, DrainResult([], queue));
    } else if q == [] {
      AllArrived(queue, arrivals);
      DrainedNone(read, [], budget, DrainResult([], []));
    } else {
      var d := DrainFrom(read, q[1..], Later(arrivals), budget - 1);
      match read(q[0])
      case QueueEmpty =>
        AllArrived(queue, arrivals);
        DrainedNone(read, q, budget, DrainResult([], q[1..]));
      case Row(item) =>
        DrainFifo(read, q[1..], Later(arrivals), budget - 1);
        var k := Queries(|d.rows|, budget - 1);
        ArrivedFirst(queue, arrivals, k);
        assert DrainFrom(read, queue, arrivals, budget) == AddRow(item, d);
        ShiftRow(read, q[0], q[1..] + Arrived(Later(arrivals), k), budget - 1, item, d);
    }
  }

  /** A drain that returns nothing, for any of the three reasons. */
  lemma DrainedNone(read: ErrorItem -> ParsedRow, all: seq<ErrorItem>, budget: nat, d: DrainResult)
    requires d.rows == []
    requires if budget > 0 && all != [] then read(all[0]).QueueEmpty? && d.left == all[1..] else d.left == all
    ensures Drained(read, all, budget, d)
  {
  }

  lemma NothingArrives(queue: seq<ErrorItem>, arrivals: seq<seq<ErrorItem>>)
    ensures queue + Arrived(arrivals, 0) == queue
  {
    assert queue + [] == queue;
  }

  lemma AllArrived(queue: seq<ErrorItem>, arrivals: seq<seq<ErrorItem>>)
    ensures queue + Arrived(arrivals, 1) == Arrive(queue, arrivals)
  {
    assert arrivals != [] ==> Arrived(arrivals[1..], 0) == [] && arrivals[0] + [] == arrivals[0];
    assert queue + [] == queue;
  }

  lemma ArrivedFirst(queue: seq<ErrorItem>, arrivals: seq<seq<ErrorItem>>, k: nat)
    requires Arrive(queue, arrivals) != []
    ensures var q := Arrive(queue, arrivals);
            queue + Arrived(arrivals, k + 1) == [q[0]] + (q[1..] + Arrived(Later(arrivals), k))
  {
    var q := Arrive(queue, arrivals);
    var after := Arrived(Later(arrivals), k);
    assert q == [q[0]] + q[1..];
    if arrivals != [] {
      assert queue + (arrivals[0] + after) == q + after;
    }
  }

  lemma ShiftRow(read: ErrorItem -> ParsedRow, first: ErrorItem, all: seq<ErrorItem>, budget: nat,
                 item: ErrorItem, d: DrainResult)
    requires Drained(read, all, budget, d) && read(first) == Row(item)
    ensures Drained(read, [first] + all, budget + 1, AddRow(item, d))
  {
  }

  /**
   * The drain the server runs, whatever is queued or pushed meanwhile: a row comes back as it was pushed
   * exactly if it is readable, and the drain stops short of its budget only when the queue is empty or at
   * the first row that reads as empty.
   */
  lemma DrainIsFifo(queue: seq<ErrorItem>, arrivals: seq<seq<ErrorItem>>, budget: nat)
    ensures var d := DrainFrom(Reread, queue, arrivals, budget);
            var k := |d.rows|;
            var all := queue + Arrived(arrivals, Queries(k, budget));
            && k <= |all| && k <= budget
            && (forall i :: 0 <= i < k ==> !ReadsEmpty(all[i]) && (d.rows[i] == all[i] <==> Readable(all[i])))
            && (if k < budget && k < |all| then ReadsEmpty(all[k]) && d.left == all[k + 1..] else d.left == all[k..])
  {
    var d := DrainFrom(Reread, queue, arrivals, budget);
    var all := queue + Arrived(arrivals, Queries(|d.rows|, budget));
    DrainFifo(Reread, queue, arrivals, budget);
    hide *;
    DrainedRows(all, budget, d);
  }

  lemma DrainedRows(all: seq<ErrorItem>, budget: nat, d: DrainResult)
    requires Drained(Reread, all, budget, d)
    ensures var k := |d.rows|;
            && k <= |all| && k <= budget
            && (forall i :: 0 <= i < k ==> !ReadsEmpty(all[i]) && (d.rows[i] == all[i] <==> Readable(all[i])))
            && (if k < budget && k < |all| then ReadsEmpty(all[k]) && d.left == all[k + 1..] else d.left == all[k..])
  {
    hide Reread, Readable, ReadsEmpty;
    forall i | 0 <= i < |all|
      ensures Reread(all[i]).QueueEmpty? <==> ReadsEmpty(all[i])
      ensures Reread(all[i]).Row? ==> (Reread(all[i]).item == all[i] <==> Readable(all[i]))
    {
      ReadRight(all[i]);
    }
  }

  /** A row that does not read as empty comes back right exactly if it is readable. */
  lemma ReadRight(e: ErrorItem)
    ensures Reread(e).QueueEmpty? <==> ReadsEmpty(e)
    ensures Reread(e).Row? ==> (Reread(e).item == e <==> Readable(e))
  {
    hide NoError, SelfContained, Unescape, ParseSystErrLine, PrintRow;
    RowRoundTrip(e);
    Reading(e);
    if SelfContained(e.message) {
      UnescapesToItself(e.message);
    }
  }

  /**
   * With nothing arriving, a drain returns the first `min(n, budget)` rows and leaves the rest if and only if
   * none of those reads as empty.
   */
  lemma DrainQuietQueue(queue: seq<ErrorItem>, budget: nat)
    ensures var d := DrainFrom(Reread, queue, [], budget);
            var count := if |queue| <= budget then |queue| else budget;
            |d.rows| == count && d.left == queue[count..] <==> forall i :: 0 <= i < count ==> !ReadsEmpty(queue[i])
  {
    hide DrainFrom, ReadsEmpty, Readable;
    DrainIsFifo(queue, [], budget);
    assert queue + [] == queue;
  }

  class ErrorQueue {
    var queue: seq<ErrorItem>

    constructor ()
      ensures queue == []
    {
      queue := [];
    }

    method Push(code: int, message: Bytes)
      modifies this
      ensures queue == old(queue) + [ErrorItem(code, message)]
    {
      queue := queue + [ErrorItem(code, message)];
    }

    /** `*CLS`. */
    method Clear()
      modifies this
      ensures queue == []
    {
      queue := [];
    }

    method Read() returns (line: Bytes)
      modifies this
      ensures (line, queue) == ReadRow(old(queue))
    {
      if queue == [] {
        return SENTINEL;
      }
      line := PrintRow(queue[0]);
      queue := queue[1..];
    }

    method PushAll(items: seq<ErrorItem>)
      modifies this
      ensures queue == old(queue) + items
    {
      for i := 0 to |items|
        invariant queue == old(queue) + items[..i]
      {
        Push(items[i].code, items[i].message);
        assert items[..i + 1] == items[..i] + [items[i]];
      }
      assert items[..|items|] == items;
    }
  }

  /** One query of the drain: other handlers push what they have, then a row is asked for and read. */
  method Poll(port: ErrorQueue, arrivals: seq<seq<ErrorItem>>) returns (parsed: ParsedRow)
    modifies port
    ensures var q := Arrive(old(port.queue), arrivals);
            if q == [] then parsed == QueueEmpty && port.queue == []
            else parsed == Reread(q[0]) && port.queue == q[1..]
  {
    if arrivals != [] {
      port.PushAll(arrivals[0]);
    }
    SentinelReadsEmpty();
    var line := port.Read();
    parsed := ParseSystErrLine(line);
  }

  /** `goal` is what comes of `d` with `rows` already returned. */
  ghost predicate Prepends(goal: DrainResult, rows: seq<ErrorItem>, d: DrainResult) {
    goal.left == d.left && goal.rows == rows + d.rows
  }

  lemma PollMeaning(read: ErrorItem -> ParsedRow, goal: DrainResult, out: seq<ErrorItem>, queue: seq<ErrorItem>,
                    arrivals: seq<seq<ErrorItem>>, budget: nat)
    requires budget > 0 && Prepends(goal, out, DrainFrom(read, queue, arrivals, budget))
    ensures var q := Arrive(queue, arrivals);
            if q == [] then goal == DrainResult(out, [])
            else
              match read(q[0])
              case QueueEmpty => goal == DrainResult(out, q[1..])
              case Row(item) =>
                Prepends(goal, out + [item], DrainFrom(read, q[1..], Later(arrivals), budget - 1))
  {
  }

  /**
   * `drainSystErr` against the simulator: `arrivals[i]` is pushed by other handlers before query `i`, and
   * the port answers only the first `answered` queries; the query after them fails and ends the drain.
   */
  method DrainSystErr(port: ErrorQueue, arrivals: seq<seq<ErrorItem>>, maxIterations: nat, answered: nat)
    returns (out: seq<ErrorItem>)
    modifies port
    ensures var budget := if answered < maxIterations then answered else maxIterations;
            DrainResult(out, port.queue) == DrainFrom(Reread, old(port.queue), arrivals, budget)
  {
    hide Reread;
    out := [];
    ghost var budget := if answered < maxIterations then answered else maxIterations;
    ghost var goal := DrainFrom(Reread, port.queue, arrivals, budget);
    var pending := arrivals;
    var i := 0;
    while i < maxIterations
      invariant 0 <= i <= budget
      invariant Prepends(goal, out, DrainFrom(Reread, port.queue, pending, budget - i))
    {
      if i >= answered {
        break;
      }
      PollMeaning(Reread, goal, out, port.queue, pending, budget - i);
      var parsed := Poll(port, pending);
      pending := if pending == [] then [] else pending[1..];
      if parsed.QueueEmpty? {
        return;
      }
      out := out + [parsed.item];
      i := i + 1;
    }
  }
}
