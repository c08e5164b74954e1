/** Successive reads of one byte stream that arrives in chunks: how the stream is cut does not matter. */
module Chunking {
  import opened Framing

  /** One settled read. */
  datatype Reply = Value(bytes: Bytes) | ProtocolError

  /** Successive reads of one byte stream: the replies so far, the modes still waiting, the leftover. */
  datatype Reader = Reader(out: seq<Reply>, modes: seq<ReadMode>, buf: Bytes)

  /** One call of `#tryDeliver`: at most one read settles; a malformed buffer is not consumed. */
  function TryDeliver(r: Reader): Reader {
    if r.modes == [] then r else
    match ParseReply(r.modes[0], r.buf)
    case NeedMore => r
    case Got(v, rest) => Reader(r.out + [Value(v)], r.modes[1..], rest)
    case Malformed => Reader(r.out + [ProtocolError], r.modes[1..], r.buf)
  }

  /** The reference reading: everything the stream holds is there from the start. */
  function ReadAll(r: Reader): Reader
    decreases |r.modes|
  {
    if r.modes == [] || ParseReply(r.modes[0], r.buf).NeedMore? then r else ReadAll(TryDeliver(r))
  }

  /** Chunks arrive and deliveries are attempted in any order. */
  datatype ReaderEvent = Chunk(bytes: Bytes) | Attempt

  function Received(e: ReaderEvent): Bytes {
    match e
    case Chunk(c) => c
    case Attempt => ""
  }

  function ReaderStep(r: Reader, e: ReaderEvent): Reader {
    TryDeliver(r.(buf := r.buf + Received(e)))
  }

  function ReaderRun(r: Reader, events: seq<ReaderEvent>): Reader
    decreases |events|
  {
    if events == [] then r else ReaderRun(ReaderStep(r, events[0]), events[1..])
  }

  function Stream(events: seq<ReaderEvent>): Bytes {
    if events == [] then "" else Received(events[0]) + Stream(events[1..])
  }

  /** No block is delivered while the LF that belongs to it is still to come. */
  predicate LfInTime(r: Reader, events: seq<ReaderEvent>)
    decreases |events|
  {
    events == [] ||
    (&& (r.modes != [] ==> !OrphanLf(r.modes[0], r.buf + Received(events[0]), Stream(events[1..])))
     && LfInTime(ReaderStep(r, events[0]), events[1..]))
  }

  /** Settling one read early does not change what the whole stream reads as. */
  lemma DeliverEarly(r: Reader, more: Bytes)
    requires r.modes != [] ==> !OrphanLf(r.modes[0], r.buf, more)
    ensures var early := TryDeliver(r);
            ReadAll(early.(buf := early.buf + more)) == ReadAll(r.(buf := r.buf + more))
  {
    if r.modes != [] {
      var p := ParseReply(r.modes[0], r.buf);
      if p.Got? {
        GotStable(r.modes[0], r.buf, more);
      } else if p.Malformed? {
        MalformedStable(r.modes[0], r.buf, more);
      }
    }
  }

  // ---------------------------------------------------------------------------
  // A stray LF
  // ---------------------------------------------------------------------------

  function Rank(out: seq<Reply>, i: nat): nat
    requires i <= |out|
  {
    if i == |out| then 3
    else
      match out[i]
      case ProtocolError => 0
      case Value(bytes) => if bytes == "" then 1 else 2
  }

  predicate EarlierAt(x: Reader, y: Reader, i: nat) {
    && i <= |x.out| && i <= |y.out| && x.out[..i] == y.out[..i]
    && Rank(x.out, i) < Rank(y.out, i)
  }

  /**
   * One more LF went into the reading `x` than into `y`: at the first reply where they differ, `x` has an
   * error or an empty line, or any reply at all where `y` has none; or nothing but a longer leftover.
   */
  ghost predicate Earlier(x: Reader, y: Reader) {
    (exists i: nat :: EarlierAt(x, y, i)) || (x.out == y.out && |x.buf| > |y.buf|)
  }

  lemma EarlierDiffers(x: Reader, y: Reader)
    requires Earlier(x, y)
    ensures x != y
  {
  }

  lemma EarlierTransitive(x: Reader, y: Reader, z: Reader)
    requires Earlier(x, y) && Earlier(y, z)
    ensures Earlier(x, z)
  {
    if i: nat :| EarlierAt(x, y, i) {
      if j: nat :| EarlierAt(y, z, j) {
        if i <= j {
          assert y.out[..i] == y.out[..j][..i] && z.out[..i] == z.out[..j][..i];
          assert i < j ==> y.out[i] == y.out[..j][i] && z.out[i] == z.out[..j][i];
          assert EarlierAt(x, z, i);
        } else {
          assert x.out[..j] == x.out[..i][..j] && y.out[..j] == y.out[..i][..j];
          assert x.out[j] == x.out[..i][j] && y.out[j] == y.out[..i][j];
          assert EarlierAt(x, z, j);
        }
      } else {
        assert EarlierAt(x, z, i);
      }
    } else {
      if j: nat :| EarlierAt(y, z, j) {
        assert EarlierAt(x, z, j);
      }
    }
  }

  /** Replies already there stay. */
  lemma {:induction false} ReadAllKeeps(r: Reader)
    ensures r.out <= ReadAll(r).out
    decreases |r.modes|
  {
    if r.modes == [] || ParseReply(r.modes[0], r.buf).NeedMore? {
    } else {
      ReadAllKeeps(TryDeliver(r));
    }
  }

  /** The readings differ in the very next reply. */
  lemma NextDiffers(x: Reader, y: Reader, out: seq<Reply>, first: Reply)
    requires out + [first] <= x.out && out <= y.out
    requires Rank(out + [first], |out|) < Rank(y.out, |out|)
    ensures Earlier(x, y)
  {
    assert x.out[|out|] == first;
    assert EarlierAt(x, y, |out|);
  }

  /** One delivery, spelled out. */
  lemma Delivers(out: seq<Reply>, modes: seq<ReadMode>, buf: Bytes)
    requires modes != [] && !ParseReply(modes[0], buf).NeedMore?
    ensures var p := ParseReply(modes[0], buf);
            ReadAll(Reader(out, modes, buf)) ==
            if p.Got? then ReadAll(Reader(out + [Value(p.value)], modes[1..], p.rest))
            else ReadAll(Reader(out + [ProtocolError], modes[1..], buf))
  {
    hide ParseReply;
  }

  lemma EmptyLine(stray: Bytes, tail: Bytes)
    requires stray == "\n" || stray == "\r\n"
    ensures ParseLine(stray + tail) == Got("", tail)
  {
    var s := stray + tail;
    var i := |stray| - 1;
    assert s[i] == '\n' && s[..i] == stray[..i] && s[i + 1..] == tail;
  }

  /** A line that reads as empty is such an LF, with or without a CR. */
  lemma EmptyLineIs(buf: Bytes) returns (stray: Bytes)
    requires ParseLine(buf).Got? && ParseLine(buf).value == ""
    ensures stray == "\n" || stray == "\r\n"
    ensures buf == stray + ParseLine(buf).rest
  {
    var i := IndexOf(buf, '\n');
    stray := buf[..i + 1];
    assert i <= 1 && (i == 1 ==> buf[0] == '\r');
  }

  lemma NotABlock(stray: Bytes, tail: Bytes)
    requires stray == "\n" || stray == "\r\n"
    ensures ParseBlock(stray + tail) == if |stray + tail| < 2 then NeedMore else Malformed
    ensures |stray + tail| < 2 ==> ParseBlock(tail) == NeedMore
  {
  }

  /** An LF too many in front of the buffer always shows in what is read. */
  lemma {:induction false} Displaced(out: seq<Reply>, modes: seq<ReadMode>, stray: Bytes, tail: Bytes)
    requires stray == "\n" || stray == "\r\n"
    ensures Earlier(ReadAll(Reader(out, modes, stray + tail)), ReadAll(Reader(out, modes, tail)))
    decreases |modes|
  {
    hide ParseLine, ParseBlock, EarlierAt;
    if modes == [] || modes[0] == NoReply {
      assert |stray + tail| > |tail|;
    } else if modes[0] == Line {
      DisplacedLine(out, modes, stray, tail);
    } else {
      DisplacedBlock(out, modes, stray, tail);
    }
  }

  lemma {:induction false} DisplacedLine(out: seq<Reply>, modes: seq<ReadMode>, stray: Bytes, tail: Bytes)
    requires modes != [] && modes[0] == Line && (stray == "\n" || stray == "\r\n")
    ensures Earlier(ReadAll(Reader(out, modes, stray + tail)), ReadAll(Reader(out, modes, tail)))
    decreases |modes|, 0
  {
    assert !ParseLine(tail).Malformed?;
    hide ReadAll, Earlier, ParseLine;
    var next := out + [Value("")];
    EmptyLine(stray, tail);
    Delivers(out, modes, stray + tail);
    var x, y := ReadAll(Reader(out, modes, stray + tail)), ReadAll(Reader(out, modes, tail));
    ReadAllKeeps(Reader(next, modes[1..], tail));
    if ParseLine(tail).NeedMore? {
      Waits(Reader(out, modes, tail));
      NextDiffers(x, y, out, Value(""));
    } else {
      var v, rest := ParseLine(tail).value, ParseLine(tail).rest;
      Delivers(out, modes, tail);
      if v == "" {
        var again := EmptyLineIs(tail);
        Displaced(next, modes[1..], again, rest);
      } else {
        ReadAllKeeps(Reader(out + [Value(v)], modes[1..], rest));
        assert y.out[|out|] == Value(v);
        NextDiffers(x, y, out, Value(""));
      }
    }
  }

  lemma {:induction false} DisplacedBlock(out: seq<Reply>, modes: seq<ReadMode>, stray: Bytes, tail: Bytes)
    requires modes != [] && modes[0] == Block && (stray == "\n" || stray == "\r\n")
    ensures Earlier(ReadAll(Reader(out, modes, stray + tail)), ReadAll(Reader(out, modes, tail)))
    decreases |modes|, 0
  {
    hide ReadAll, ParseBlock, EarlierAt;
    NotABlock(stray, tail);
    var x, y := ReadAll(Reader(out, modes, stray + tail)), ReadAll(Reader(out, modes, tail));
    if |stray + tail| < 2 {
      Waits(Reader(out, modes, stray + tail));
      Waits(Reader(out, modes, tail));
    } else {
      var next := out + [ProtocolError];
      Delivers(out, modes, stray + tail);
      ReadAllKeeps(Reader(next, modes[1..], stray + tail));
      match ParseBlock(tail)
      case NeedMore =>
        Waits(Reader(out, modes, tail));
        NextDiffers(x, y, out, ProtocolError);
      case Got(v, rest) =>
        Delivers(out, modes, tail);
        ReadAllKeeps(Reader(out + [Value(v)], modes[1..], rest));
        assert y.out[|out|] == Value(v);
        NextDiffers(x, y, out, ProtocolError);
      case Malformed =>
        Delivers(out, modes, tail);
        Displaced(next, modes[1..], stray, tail);
    }
  }

  lemma Waits(r: Reader)
    requires r.modes == [] || ParseReply(r.modes[0], r.buf).NeedMore?
    ensures ReadAll(r) == r
  {
  }

  /** Settling a block before its LF has arrived always shows. */
  lemma DeliverTooEarly(r: Reader, more: Bytes)
    requires r.modes != [] && OrphanLf(r.modes[0], r.buf, more)
    ensures var early := TryDeliver(r);
            Earlier(ReadAll(early.(buf := early.buf + more)), ReadAll(r.(buf := r.buf + more)))
  {
    var value := OrphanDelivers(r.modes[0], r.buf, more);
    hide ParseReply, ReadAll, Earlier, OrphanLf;
    assert TryDeliver(r) == Reader(r.out + [Value(value)], r.modes[1..], "");
    Delivers(r.out, r.modes, r.buf + more);
    Displaced(r.out + [Value(value)], r.modes[1..], "\n", more[1..]);
    assert "" + more == more;
  }

  lemma OrphanDelivers(mode: ReadMode, buf: Bytes, more: Bytes) returns (value: Bytes)
    requires OrphanLf(mode, buf, more)
    ensures ParseReply(mode, buf) == Got(value, "") && ParseReply(mode, buf + more) == Got(value, more[1..])
    ensures more == "\n" + more[1..]
  {
    value := buf[BlockHeader(buf).headerSize..];
    HeaderStable(buf, more);
    CutBareThen(BlockHeader(buf), buf, more);
  }

  /** `x` is the reading `y`, or one with an LF too many. */
  ghost predicate Reads(inTime: bool, x: Reader, y: Reader) {
    if inTime then x == y else Earlier(x, y)
  }

  lemma ReadsItself(x: Reader)
    ensures Reads(true, x, x)
  {
  }

  lemma ReadsChain(a: bool, b: bool, x: Reader, y: Reader, z: Reader)
    requires Reads(a, x, y) && Reads(b, y, z)
    ensures Reads(a && b, x, z)
  {
    hide Earlier;
    if !a && !b {
      EarlierTransitive(x, y, z);
    }
  }

  lemma DeliversInTime(r: Reader, more: Bytes)
    ensures var early := TryDeliver(r);
            Reads(r.modes != [] ==> !OrphanLf(r.modes[0], r.buf, more),
                  ReadAll(early.(buf := early.buf + more)), ReadAll(r.(buf := r.buf + more)))
  {
    hide ReadAll, TryDeliver, OrphanLf, Earlier;
    if r.modes != [] && OrphanLf(r.modes[0], r.buf, more) {
      DeliverTooEarly(r, more);
    } else {
      DeliverEarly(r, more);
    }
  }

  /** Every run reads what the whole stream reads, unless an LF came too late: then an LF too many was read. */
  lemma {:induction false} ChunkedReading(r: Reader, events: seq<ReaderEvent>)
    ensures Reads(LfInTime(r, events), ReadAll(ReaderRun(r, events)), ReadAll(r.(buf := r.buf + Stream(events))))
    decreases |events|
  {
    hide ReadAll, TryDeliver, OrphanLf, Reads, Received;
    if events == [] {
      assert r.(buf := r.buf + Stream(events)) == r;
      ReadsItself(ReadAll(r));
    } else {
      var fed := r.(buf := r.buf + Received(events[0]));
      var later := Stream(events[1..]);
      var next := TryDeliver(fed);
      ChunkedReading(next, events[1..]);
      assert r.(buf := r.buf + Stream(events)) == fed.(buf := fed.buf + later);
      DeliversInTime(fed, later);
      ReadsChain(LfInTime(next, events[1..]), fed.modes != [] ==> !OrphanLf(fed.modes[0], fed.buf, later),
                 ReadAll(ReaderRun(r, events)),
                 ReadAll(next.(buf := next.buf + later)),
                 ReadAll(fed.(buf := fed.buf + later)));
    }
  }

  /**
   * Chunking independence: however the stream is cut up and whenever deliveries are attempted, what has
   * been read and what is still buffered stand for the same reading as the stream in one piece, if and only
   * if no block was delivered ahead of its LF.
   */
  lemma ChunkingIndependence(r: Reader, events: seq<ReaderEvent>)
    ensures ReadAll(ReaderRun(r, events)) == ReadAll(r.(buf := r.buf + Stream(events))) <==> LfInTime(r, events)
  {
    hide ReadAll, ReaderRun, LfInTime, Stream, Earlier;
    ChunkedReading(r, events);
    if !LfInTime(r, events) {
      EarlierDiffers(ReadAll(ReaderRun(r, events)), ReadAll(r.(buf := r.buf + Stream(events))));
    }
  }

  /** At rest the replies and the leftover buffer are exactly those of the unbroken stream, under the same condition. */
  lemma ChunkingAtRest(modes: seq<ReadMode>, events: seq<ReaderEvent>)
    requires var end := ReaderRun(Reader([], modes, ""), events);
             end.modes == [] || ParseReply(end.modes[0], end.buf).NeedMore?
    ensures ReaderRun(Reader([], modes, ""), events) == ReadAll(Reader([], modes, Stream(events)))
       <==> LfInTime(Reader([], modes, ""), events)
  {
    ChunkingIndependence(Reader([], modes, ""), events);
    assert "" + Stream(events) == Stream(events);
  }
}
