/** The bounded rings that keep a session's newest transcript lines and device errors. */
module RingBuffers {
  import opened Common

  datatype Entry = Entry(seqNo: nat, line: int)

  /** The full transcript: every line ever pushed, numbered from 1. */
  function Stamped(log: seq<int>): (r: seq<Entry>)
    ensures |r| == |log|
  {
    seq(|log|, i requires 0 <= i < |log| => Entry(i + 1, log[i]))
  }

  lemma StampedGrows(log: seq<int>, line: int)
    ensures Stamped(log + [line]) == Stamped(log) + [Entry(|log| + 1, line)]
  {
  }

  /** The given size, or one if that is less. */
  function AtLeastOne(n: int): (r: nat)
    ensures 1 <= r && n <= r && (r == 1 || r == n)
  {
    if n < 1 then 1 else n
  }

  function Max(a: int, b: int): int {
    if a < b then b else a
  }

  function Min(a: int, b: int): int {
    if a < b then a else b
  }

  /** Where in the full transcript a page asked for with `since` begins. */
  function PageStart(log: seq<int>, max: nat, since: int): (lo: nat)
    ensures lo <= |log|
  {
    Min(Max(since, Max(|log| - max, 0)), |log|)
  }

  /** The entries after `since` that the ring still has, oldest first, at most `limit` of them but one at least. */
  function Page(log: seq<int>, max: nat, since: int, limit: int): seq<Entry> {
    var lo := PageStart(log, max, since);
    Stamped(log)[lo..Min(lo + AtLeastOne(limit), |log|)]
  }

  lemma Numbered(log: seq<int>, max: nat)
    ensures var buf := LastN(Stamped(log), max);
            forall k | 0 <= k < |buf| :: buf[k].seqNo == |log| - |buf| + k + 1
  {
  }

  /** The page takes what the ring holds after `since`, all of it unless the limit cuts it short. */
  lemma PageTakes(log: seq<int>, max: nat, since: int, limit: int)
    ensures var out, buf := Page(log, max, since, limit), LastN(Stamped(log), max);
            && (forall e :: e in out ==> e in buf && e.seqNo > since)
            && (|out| < limit ==> forall e :: e in buf && e.seqNo > since ==> e in out)
  {
    var all := Stamped(log);
    var lo := PageStart(log, max, since);
    var hi := Min(lo + AtLeastOne(limit), |log|);
    var first := |all| - |LastN(all, max)|;
    assert Page(log, max, since, limit) == all[lo..hi] && LastN(all, max) == all[first..];
    assert forall k :: 0 <= k < |all| ==> all[k].seqNo == k + 1;
    assert first <= lo && (lo < |all| ==> since <= lo) && (lo == first || lo <= since);
    hide Stamped, Page, PageStart, LastN, AtLeastOne;
    SliceTakes(all, first, lo, hi, since);
  }

  /** A slice of numbered entries, from the first after `since` on. */
  lemma SliceTakes(all: seq<Entry>, first: nat, lo: nat, hi: nat, since: int)
    requires first <= lo <= hi <= |all| && forall k :: 0 <= k < |all| ==> all[k].seqNo == k + 1
    requires (lo < |all| ==> since <= lo) && (lo == first || lo <= since)
    ensures forall e :: e in all[lo..hi] ==> e in all[first..] && e.seqNo > since
    ensures hi == |all| ==> forall e :: e in all[first..] && e.seqNo > since ==> e in all[lo..hi]
  {
    forall e | e in all[lo..hi] ensures e in all[first..] && e.seqNo > since {
      var i :| 0 <= i < hi - lo && all[lo..hi][i] == e;
      assert all[first..][lo + i - first] == e;
    }
    if hi == |all| {
      forall e | e in all[first..] && e.seqNo > since ensures e in all[lo..hi] {
        var k :| 0 <= k < |all| - first && all[first..][k] == e;
        assert all[lo..hi][first + k - lo] == e;
      }
    }
  }

  /** The page as a stretch of what the ring holds. */
  lemma PageInBuffer(log: seq<int>, max: nat, since: int, limit: int)
    ensures var buf := LastN(Stamped(log), max);
            Page(log, max, since, limit) == Stretch(buf, since - (|log| - |buf|), limit)
  {
    var all := Stamped(log);
    hide Stamped;
    var first := |all| - |LastN(all, max)|;
    assert LastN(all, max) == all[first..];
    SliceOfTail(all, first, since - first, limit);
  }

  /** At most `limit` elements but one at least, after the first `skip`. */
  function Stretch<T>(s: seq<T>, skip: int, limit: int): seq<T> {
    var lo := Min(Max(skip, 0), |s|);
    s[lo..Min(lo + AtLeastOne(limit), |s|)]
  }

  lemma SliceOfTail<T>(all: seq<T>, first: nat, skip: int, limit: int)
    requires first <= |all|
    ensures var lo := Min(Max(first + skip, first), |all|);
            Stretch(all[first..], skip, limit) == all[lo..Min(lo + AtLeastOne(limit), |all|)]
  {
  }

  /** The loop of `getSince`, over entries numbered from `first` + 1. */
  method Scan(buf: seq<Entry>, ghost first: int, since: int, limit: int) returns (out: seq<Entry>)
    requires forall k | 0 <= k < |buf| :: buf[k].seqNo == first + k + 1
    ensures out == Stretch(buf, since - first, limit)
  {
    ghost var lo := Min(Max(since - first, 0), |buf|);
    out := [];
    for i := 0 to |buf|
      invariant out == (if i <= lo then [] else buf[lo..i]) && |out| < AtLeastOne(limit)
    {
      var e := buf[i];
      if e.seqNo <= since {
        continue;
      }
      out := out + [e];
      if |out| >= limit {
        break;
      }
    }
  }

  lemma TailOfTail<T>(s: seq<T>, m: nat, n: nat)
    requires n <= m
    ensures LastN(LastN(s, m), n) == LastN(s, n)
  {
  }

  class TranscriptRing {
    const max: nat
    var nextSeq: nat
    var buf: seq<Entry>
    ghost var log: seq<int>

    /** The ring is the end of the full transcript, numbered up to the newest line. */
    ghost predicate Valid()
      reads this
    {
      max >= 1 && nextSeq == |log| + 1 && buf == LastN(Stamped(log), max)
    }

    constructor (maxSize: int)
      ensures Valid() && log == [] && max == AtLeastOne(maxSize)
    {
      max, nextSeq, buf, log := AtLeastOne(maxSize), 1, [], [];
    }

    method Push(line: int) returns (entry: Entry)
      requires Valid()
      modifies this
      ensures Valid() && log == old(log) + [line]
      ensures entry == Entry(|log|, line)
    {
      entry := Entry(nextSeq, line);
      nextSeq := nextSeq + 1;
      StampedGrows(log, line);
      LastNAppend(Stamped(log), [entry], max);
      buf := DropOldest(buf + [entry], max);
      log := log + [line];
    }

    method GetSince(since: int, limit: int) returns (out: seq<Entry>)
      requires Valid()
      ensures out == Page(log, max, since, limit)
      ensures forall e :: e in out ==> e in buf && e.seqNo > since
      ensures |out| < limit ==> forall e :: e in buf && e.seqNo > since ==> e in out
    {
      PageTakes(log, max, since, limit);
      hide Page;
      Numbered(log, max);
      PageInBuffer(log, max, since, limit);
      out := Scan(buf, |log| - |buf|, since, limit);
    }

    /** Despite its comment the result is oldest first; `slice(-0)` is the whole buffer. */
    method Tail(limit: nat) returns (out: seq<Entry>)
      requires Valid()
      ensures out == LastN(Stamped(log), if limit == 0 then max else Min(limit, max))
    {
      TailOfTail(Stamped(log), max, if limit == 0 then max else Min(limit, max));
      assert buf == LastN(Stamped(log), max) && |buf| <= max;
      hide Stamped, Valid;
      if |buf| <= limit {
        return buf;
      }
      out := if limit == 0 then buf else buf[|buf| - limit..];
      assert limit > 0 ==> out == LastN(buf, limit);
    }

    method MaxSeq() returns (n: nat)
      requires Valid()
      ensures n == |log| && (buf != [] ==> buf[|buf| - 1].seqNo == n)
    {
      n := nextSeq - 1;
    }
  }

  class DeviceErrorRing<T> {
    const max: nat
    var buf: seq<T>
    ghost var log: seq<T>

    ghost predicate Valid()
      reads this
    {
      max >= 1 && buf == LastN(log, max)
    }

    constructor (maxSize: int)
      ensures Valid() && log == [] && max == AtLeastOne(maxSize)
    {
      max, buf, log := AtLeastOne(maxSize), [], [];
    }

    method Push(e: T)
      requires Valid()
      modifies this
      ensures Valid() && log == old(log) + [e]
    {
      LastNAppend(log, [e], max);
      buf := DropOldest(buf + [e], max);
      log := log + [e];
    }

    method PushMany(entries: seq<T>)
      requires Valid()
      modifies this
      ensures Valid() && log == old(log) + entries
    {
      for i := 0 to |entries|
        invariant Valid() && log == old(log) + entries[..i]
      {
        Push(entries[i]);
        assert entries[..i + 1] == entries[..i] + [entries[i]];
      }
      assert entries[..|entries|] == entries;
    }

    method Clear()
      modifies this
      requires Valid()
      ensures Valid() && log == []
    {
      buf, log := [], [];
    }
  }

  // ---------------------------------------------------------------------------
  // Paging: a reader that keeps asking for what came after its last entry
  // ---------------------------------------------------------------------------

  datatype Event = Pushed(line: int) | Asked(limit: int)

  /** `seen` is what the reader has, `gone` the numbers that had left the ring when it came to ask for them. */
  datatype Paging = Paging(log: seq<int>, since: nat, seen: seq<Entry>, gone: set<nat>)

  /** The numbers after `lo`, up to `hi`. */
  function Numbers(lo: nat, hi: int): (r: set<nat>)
    ensures forall q: nat :: q in r <==> lo < q <= hi
    decreases hi - lo
  {
    if hi <= lo then {} else Numbers(lo, hi - 1) + {hi}
  }

  function Step(p: Paging, max: nat, e: Event): Paging {
    match e
    case Pushed(line) => p.(log := p.log + [line])
    case Asked(limit) =>
      var page := Page(p.log, max, p.since, limit);
      p.(since := if page == [] then p.since else page[|page| - 1].seqNo,
         seen := p.seen + page,
         gone := p.gone + Numbers(p.since, |p.log| - max))
  }

  function Run(trace: Trace<Event>, max: nat): Paging {
    match trace
    case Start => Paging([], 0, [], {})
    case Then(before, event) => Step(Run(before, max), max, event)
  }

  ghost predicate Saw(seen: seq<Entry>, q: nat) {
    exists i :: 0 <= i < |seen| && seen[i].seqNo == q
  }

  /** Increasing numbers, each with its own line. */
  predicate Increasing(seen: seq<Entry>, log: seq<int>) {
    && (forall i, j | 0 <= i < j < |seen| :: seen[i].seqNo < seen[j].seqNo)
    && forall i | 0 <= i < |seen| :: 1 <= seen[i].seqNo <= |log| && seen[i].line == log[seen[i].seqNo - 1]
  }

  ghost predicate Valid(p: Paging) {
    && p.since <= |p.log|
    && Increasing(p.seen, p.log)
    && (forall i | 0 <= i < |p.seen| :: p.seen[i].seqNo <= p.since)
    && (forall q | q in p.gone :: 1 <= q <= p.since)
    && forall q: nat | 1 <= q <= p.since :: Saw(p.seen, q) <==> q !in p.gone
  }

  /** A page is the unbroken run of entries from the first the ring still has. */
  lemma PageRun(log: seq<int>, max: nat, since: nat, limit: int)
    requires since <= |log|
    ensures var page := Page(log, max, since, limit); var lo := PageStart(log, max, since);
            && lo == Max(since, |log| - max)
            && lo + |page| <= |log| && (page == [] <==> lo == |log|)
            && |page| == Min(AtLeastOne(limit), |log| - lo)
            && forall i | 0 <= i < |page| :: page[i] == Entry(lo + i + 1, log[lo + i])
  {
  }

  lemma AskedIncreasing(p: Paging, max: nat, limit: int)
    requires Valid(p) && max >= 1
    ensures var n := Step(p, max, Asked(limit));
            && Increasing(n.seen, n.log) && n.since <= |n.log|
            && forall i | 0 <= i < |n.seen| :: n.seen[i].seqNo <= n.since
  {
    PageRun(p.log, max, p.since, limit);
    hide Page;
    hide PageStart;
  }

  lemma AskedSees(p: Paging, max: nat, limit: int, q: nat)
    requires Valid(p) && max >= 1
    ensures var n := Step(p, max, Asked(limit)); 1 <= q <= n.since ==> (Saw(n.seen, q) <==> q !in n.gone)
  {
    PageRun(p.log, max, p.since, limit);
    hide Page;
    hide PageStart;
    var n := Step(p, max, Asked(limit));
    var lo := PageStart(p.log, max, p.since);
    if 1 <= q <= p.since {
      assert Saw(p.seen, q) <==> q !in p.gone;
      if Saw(p.seen, q) {
        var i :| 0 <= i < |p.seen| && p.seen[i].seqNo == q;
        assert n.seen[i].seqNo == q;
      }
    } else if lo < q <= n.since {
      assert n.seen[|p.seen| + q - lo - 1].seqNo == q;
    }
  }

  lemma StepValid(p: Paging, max: nat, e: Event)
    requires Valid(p) && max >= 1
    ensures Valid(Step(p, max, e))
  {
    match e
    case Pushed(line) =>
    case Asked(limit) =>
      AskedIncreasing(p, max, limit);
      PageRun(p.log, max, p.since, limit);
      hide Page;
      hide PageStart;
      forall q: nat | 1 <= q <= Step(p, max, e).since
        ensures Saw(Step(p, max, e).seen, q) <==> q !in Step(p, max, e).gone
      {
        AskedSees(p, max, limit, q);
      }
  }

  lemma RunValid(trace: Trace<Event>, max: nat)
    requires max >= 1
    ensures Valid(Run(trace, max))
  {
    match trace
    case Start =>
    case Then(before, event) =>
      RunValid(before, max);
      StepValid(Run(before, max), max, event);
  }

  /**
   * Paging, over every interleaving of pushes and requests: what the reader has seen is strictly increasing
   * and genuine, and of the entries it has got past it misses exactly those that had left the ring by the
   * time it asked for them.
   */
  lemma PagingMissesOnlyTheEvicted(trace: Trace<Event>, max: nat, q: nat)
    requires max >= 1
    ensures Increasing(Run(trace, max).seen, Lines(trace))
    ensures 1 <= q <= Run(trace, max).since ==> (Saw(Run(trace, max).seen, q) <==> q !in Run(trace, max).gone)
  {
    RunValid(trace, max);
    LogIsLines(trace, max);
  }

  /** The lines pushed in a run, in order. */
  ghost function Lines(trace: Trace<Event>): seq<int> {
    match trace
    case Start => []
    case Then(before, event) => if event.Pushed? then Lines(before) + [event.line] else Lines(before)
  }

  lemma {:induction false} LogIsLines(trace: Trace<Event>, max: nat)
    ensures Run(trace, max).log == Lines(trace)
  {
    match trace
    case Start =>
    case Then(before, event) => LogIsLines(before, max);
  }

  /** A reader gets ahead with every request while there is more, by as much as it asked for or to the end. */
  lemma RequestsGetAhead(p: Paging, max: nat, limit: int)
    requires Valid(p) && max >= 1
    ensures var n := Step(p, max, Asked(limit));
            && (p.since < |p.log| ==> n.since > p.since && n.since >= Min(p.since + limit, |p.log|))
            && (p.since == |p.log| ==> n.since == p.since && n.seen == p.seen)
            && n.since <= |p.log|
  {
    PageRun(p.log, max, p.since, limit);
    hide Page, PageStart;
  }

  /** A reader that asks again before `max` lines have gone by misses nothing. */
  lemma KeepingUp(p: Paging, max: nat, limit: int)
    requires Valid(p) && p.gone == {} && |p.log| - p.since <= max
    ensures Step(p, max, Asked(limit)).gone == {}
  {
  }
}
