/**
 * A device that takes LF-terminated frames one after the other, fed from a byte stream that is cut into
 * chunks as the transport likes.
 */
module DeviceScripts {
  import opened Framing

  /** What a device does with one line: its next state and the bytes it writes back. */
  type Device<!D> = (D, Bytes) -> (D, Bytes)

  datatype Drained<D> = Drained(device: D, out: Bytes, rest: Bytes, lines: nat)

  /** The socket handler's loop over the complete lines received so far. */
  function Drain<D>(dev: Device<D>, device: D, buf: Bytes): Drained<D>
    decreases |buf|
  {
    var index := IndexOf(buf, '\n');
    if index < 0 then Drained(device, "", buf, 0)
    else
      var (next, written) := dev(device, TrimCr(buf[..index]));
      var later := Drain(dev, next, buf[index + 1..]);
      Drained(later.device, written + later.out, later.rest, later.lines + 1)
  }

  /** A device and its state when the link comes up. */
  datatype Bench<!D> = Bench(dev: Device<D>, start: D)

  /** A frame holds exactly one LF, at its end. */
  predicate OneLine(frame: Bytes) {
    frame != "" && frame[|frame| - 1] == '\n' && forall i :: 0 <= i < |frame| - 1 ==> frame[i] != '\n'
  }

  predicate OneLines(frames: seq<Bytes>) {
    forall k :: 0 <= k < |frames| ==> OneLine(frames[k])
  }

  /** The line the device sees. */
  function LineOf(frame: Bytes): Bytes
    requires frame != ""
  {
    TrimCr(frame[..|frame| - 1])
  }

  /** The device's state after the first `k` frames, taken one after the other. */
  function DeviceAfter<D>(b: Bench<D>, frames: seq<Bytes>, k: nat): D
    requires k <= |frames| && OneLines(frames)
  {
    if k == 0 then b.start else b.dev(DeviceAfter(b, frames, k - 1), LineOf(frames[k - 1])).0
  }

  /** What the device writes back for frame `k`. */
  function Answer<D>(b: Bench<D>, frames: seq<Bytes>, k: nat): Bytes
    requires k < |frames| && OneLines(frames)
  {
    b.dev(DeviceAfter(b, frames, k), LineOf(frames[k])).1
  }

  /** Frames `i` up to `n`, joined. */
  function Outgoing(frames: seq<Bytes>, i: nat, n: nat): Bytes
    requires i <= n <= |frames|
    decreases n - i
  {
    if i == n then "" else frames[i] + Outgoing(frames, i + 1, n)
  }

  /** What the device writes back for frames `i` up to `j`. */
  function Answers<D>(b: Bench<D>, frames: seq<Bytes>, i: nat, j: nat): Bytes
    requires i <= j <= |frames| && OneLines(frames)
    decreases j - i
  {
    if i == j then "" else Answer(b, frames, i) + Answers(b, frames, i + 1, j)
  }

  /** Where only the last frame of a script is answered, nothing is heard before that frame is taken. */
  lemma {:induction false} QuietAnswers<D>(b: Bench<D>, frames: seq<Bytes>, i: nat, j: nat, n: nat)
    requires i <= j <= n <= |frames| && OneLines(frames)
    requires forall k :: i <= k < n - 1 ==> Answer(b, frames, k) == ""
    ensures Answers(b, frames, i, j) == if i < j && j == n then Answer(b, frames, n - 1) else ""
    decreases j - i
  {
    hide Answer, OneLine;
    if i == j {
    } else {
      QuietAnswers(b, frames, i + 1, j, n);
    }
  }

  /** A buffer without a complete line is left alone. */
  lemma DrainNone<D>(dev: Device<D>, device: D, buf: Bytes)
    requires IndexOf(buf, '\n') < 0
    ensures Drain(dev, device, buf) == Drained(device, "", buf, 0)
  {
  }

  /** A complete line is handled first, then the rest of the buffer. */
  lemma DrainOne<D>(dev: Device<D>, device: D, buf: Bytes)
    requires IndexOf(buf, '\n') >= 0
    ensures var index := IndexOf(buf, '\n');
            var (next, written) := dev(device, TrimCr(buf[..index]));
            var later := Drain(dev, next, buf[index + 1..]);
            Drain(dev, device, buf) == Drained(later.device, written + later.out, later.rest, later.lines + 1)
  {
  }

  /** The first complete line received is the next frame's. */
  lemma NextTaken<D>(b: Bench<D>, frames: seq<Bytes>, i: nat, n: nat, buf: Bytes, more: Bytes)
    requires i <= n <= |frames| && OneLines(frames)
    requires buf + more == Outgoing(frames, i, n) && IndexOf(buf, '\n') >= 0
    ensures i < n
    ensures var index := IndexOf(buf, '\n');
            && b.dev(DeviceAfter(b, frames, i), TrimCr(buf[..index])) ==
               (DeviceAfter(b, frames, i + 1), Answer(b, frames, i))
            && buf[index + 1..] + more == Outgoing(frames, i + 1, n)
  {
    var index := IndexOf(buf, '\n');
    assert (buf + more)[index] == '\n';
    hide TrimCr, OneLine, IndexOf;
    FirstFrame(buf, more, frames[i], Outgoing(frames, i + 1, n));
  }

  /**
   * However the outgoing stream is cut, draining its next piece takes whole frames in order: the device
   * ends up where those frames lead it and has written what they are answered with.
   */
  lemma {:induction false} DrainTakesFrames<D>(b: Bench<D>, frames: seq<Bytes>, i: nat, n: nat, buf: Bytes, more: Bytes)
    requires i <= n <= |frames| && OneLines(frames)
    requires buf + more == Outgoing(frames, i, n)
    ensures var d := Drain(b.dev, DeviceAfter(b, frames, i), buf);
            && i + d.lines <= n
            && d.device == DeviceAfter(b, frames, i + d.lines)
            && d.rest + more == Outgoing(frames, i + d.lines, n)
            && d.out == Answers(b, frames, i, i + d.lines)
    decreases |buf|
  {
    hide TrimCr, OneLine, IndexOf, Drain, DeviceAfter, Answer, Outgoing;
    var index := IndexOf(buf, '\n');
    if index < 0 {
      DrainNone(b.dev, DeviceAfter(b, frames, i), buf);
    } else {
      NextTaken(b, frames, i, n, buf, more);
      DrainOne(b.dev, DeviceAfter(b, frames, i), buf);
      DrainTakesFrames(b, frames, i + 1, n, buf[index + 1..], more);
    }
  }

  /** Draining leaves no complete line behind. */
  lemma {:induction false} DrainLeavesNoLine<D>(dev: Device<D>, device: D, buf: Bytes)
    ensures IndexOf(Drain(dev, device, buf).rest, '\n') < 0
    decreases |buf|
  {
    var index := IndexOf(buf, '\n');
    if index < 0 {
    } else {
      DrainLeavesNoLine(dev, dev(device, TrimCr(buf[..index])).0, buf[index + 1..]);
    }
  }

  lemma FirstFrame(buf: Bytes, more: Bytes, f: Bytes, later: Bytes)
    requires buf + more == f + later && IndexOf(buf, '\n') >= 0 && OneLine(f)
    ensures IndexOf(buf, '\n') == |f| - 1
    ensures buf[..|f| - 1] == f[..|f| - 1] && buf[|f|..] + more == later
  {
    var index := IndexOf(buf, '\n');
    var all := buf + more;
    assert forall k :: 0 <= k < |buf| ==> all[k] == buf[k];
    assert forall k :: 0 <= k < |f| ==> all[k] == f[k];
    assert all[|f|..] == later;
  }

  /** Frames that have not been taken show up as an LF in what is to come. */
  lemma OutgoingHasLf(frames: seq<Bytes>, i: nat, n: nat)
    requires i < n <= |frames| && OneLines(frames)
    ensures IndexOf(Outgoing(frames, i, n), '\n') >= 0
  {
    assert Outgoing(frames, i, n)[|frames[i]| - 1] == '\n';
  }

  // ---------------------------------------------------------------------------
  // Frames of several lines
  // ---------------------------------------------------------------------------

  /** A frame ends in LF. One that carries a block may hold others, and the device then sees several lines. */
  predicate EndsInLf(frame: Bytes) {
    frame != "" && frame[|frame| - 1] == '\n'
  }

  /** Frames as they go out; an empty one stands for a frame that never did. */
  predicate AllEndInLf(frames: seq<Bytes>) {
    forall k :: 0 <= k < |frames| ==> frames[k] == "" || EndsInLf(frames[k])
  }

  /** The device's state before frame `k`, every earlier frame having been drained whole. */
  function DeviceBefore<D>(b: Bench<D>, frames: seq<Bytes>, k: nat): D
    requires k <= |frames|
  {
    if k == 0 then b.start else Drain(b.dev, DeviceBefore(b, frames, k - 1), frames[k - 1]).device
  }

  /** All the device writes back for frame `k`. */
  function FrameAnswer<D>(b: Bench<D>, frames: seq<Bytes>, k: nat): Bytes
    requires k < |frames|
  {
    Drain(b.dev, DeviceBefore(b, frames, k), frames[k]).out
  }

  lemma EmptyHasNoLine()
    ensures IndexOf("", '\n') < 0
  {
  }

  lemma OneLineFirst(frame: Bytes)
    requires OneLine(frame)
    ensures IndexOf(frame, '\n') == |frame| - 1
  {
    assert frame[|frame| - 1] == '\n';
  }

  /** A frame of one line is handled as that line, and nothing is left of it. */
  lemma DrainOneLine<D>(dev: Device<D>, device: D, frame: Bytes)
    requires OneLine(frame)
    ensures var (next, written) := dev(device, LineOf(frame));
            Drain(dev, device, frame) == Drained(next, written, "", 1)
  {
    hide Drain, IndexOf, TrimCr;
    OneLineFirst(frame);
    DrainOne(dev, device, frame);
    var (next, written) := dev(device, LineOf(frame));
    EmptyHasNoLine();
    DrainNone(dev, next, "");
    assert frame[|frame|..] == "";
    assert written + "" == written;
  }

  /** The lines of a frame, each with its LF. */
  function LinesOf(frame: Bytes): seq<Bytes>
    decreases |frame|
  {
    var index := IndexOf(frame, '\n');
    if index < 0 then [] else [frame[..index + 1]] + LinesOf(frame[index + 1..])
  }

  /**
   * The lines of several frames: frame `k` has those from `ends[k]` up to `ends[k + 1]`, line `i` is part of
   * frame `owner[i]`.
   */
  datatype Wire = Wire(lines: seq<Bytes>, ends: seq<nat>, owner: seq<nat>)

  function WireOf(frames: seq<Bytes>): Wire {
    if frames == [] then Wire([], [0], [])
    else
      var k := |frames| - 1;
      var w := WireOf(frames[..k]);
      var more := LinesOf(frames[k]);
      Wire(w.lines + more, w.ends + [|w.lines| + |more|], w.owner + seq(|more|, _ => k))
  }

  predicate Indexed(w: Wire, n: nat) {
    && |w.ends| == n + 1 && w.ends[0] == 0 && w.ends[n] == |w.lines| == |w.owner|
    && (forall i, j :: 0 <= i < j <= n ==> w.ends[i] <= w.ends[j])
    && (forall i :: 0 <= i < |w.owner| ==> w.owner[i] < n && w.ends[w.owner[i]] <= i < w.ends[w.owner[i] + 1])
  }

  /** Frame `k` is its lines, joined. */
  predicate Carries(frames: seq<Bytes>, w: Wire, k: nat)
    requires k < |frames| && |w.ends| == |frames| + 1
  {
    w.ends[k] <= w.ends[k + 1] <= |w.lines| && frames[k] == Outgoing(w.lines, w.ends[k], w.ends[k + 1])
  }

  predicate Wired(frames: seq<Bytes>, w: Wire) {
    && Indexed(w, |frames|) && OneLines(w.lines)
    && forall k :: 0 <= k < |frames| ==> Carries(frames, w, k)
  }

  lemma FirstLine(frame: Bytes)
    requires EndsInLf(frame)
    ensures var index := IndexOf(frame, '\n');
            && index >= 0 && OneLine(frame[..index + 1])
            && (frame[index + 1..] == "" || EndsInLf(frame[index + 1..]))
            && frame == frame[..index + 1] + frame[index + 1..]
            && (OneLine(frame) ==> frame[..index + 1] == frame && frame[index + 1..] == "")
  {
    assert frame[|frame| - 1] == '\n';
    var index := IndexOf(frame, '\n');
    hide IndexOf;
    var first := frame[..index + 1];
    assert forall k :: 0 <= k <= index ==> first[k] == frame[k];
  }

  lemma {:induction false} LinesAreLines(frame: Bytes)
    requires frame == "" || EndsInLf(frame)
    ensures OneLines(LinesOf(frame)) && Outgoing(LinesOf(frame), 0, |LinesOf(frame)|) == frame
    ensures frame != "" ==> LinesOf(frame) != []
    decreases |frame|
  {
    if frame == "" {
    } else {
      FirstLine(frame);
      var index := IndexOf(frame, '\n');
      LinesAreLines(frame[index + 1..]);
      LinePrepended(frame[..index + 1], LinesOf(frame[index + 1..]), frame[index + 1..]);
      assert LinesOf(frame) == [frame[..index + 1]] + LinesOf(frame[index + 1..]);
    }
  }

  lemma LinePrepended(first: Bytes, lines: seq<Bytes>, rest: Bytes)
    requires OneLine(first) && OneLines(lines) && Outgoing(lines, 0, |lines|) == rest
    ensures OneLines([first] + lines) && Outgoing([first] + lines, 0, |[first] + lines|) == first + rest
  {
    hide OneLine;
    OutgoingShift([first], lines, 0, |lines|);
  }

  lemma OneLineIsItsLine(frame: Bytes)
    requires OneLine(frame)
    ensures LinesOf(frame) == [frame]
  {
    FirstLine(frame);
  }

  /** Lines put in front move the rest up. */
  lemma {:induction false} OutgoingShift(front: seq<Bytes>, lines: seq<Bytes>, i: nat, n: nat)
    requires i <= n <= |lines|
    ensures Outgoing(front + lines, |front| + i, |front| + n) == Outgoing(lines, i, n)
    decreases n - i
  {
    if i == n {
    } else {
      var all, k := front + lines, |front| + i;
      OutgoingShift(front, lines, i + 1, n);
      assert all[k] == lines[i];
      assert Outgoing(all, k, |front| + n) == all[k] + Outgoing(all, k + 1, |front| + n);
    }
  }

  /** Lines put behind change nothing. */
  lemma {:induction false} OutgoingExtends(lines: seq<Bytes>, more: seq<Bytes>, i: nat, n: nat)
    requires i <= n <= |lines|
    ensures Outgoing(lines + more, i, n) == Outgoing(lines, i, n)
    decreases n - i
  {
    if i == n {
    } else {
      OutgoingExtends(lines, more, i + 1, n);
    }
  }

  lemma {:induction false} OutgoingJoin(lines: seq<Bytes>, i: nat, j: nat, n: nat)
    requires i <= j <= n <= |lines|
    ensures Outgoing(lines, i, n) == Outgoing(lines, i, j) + Outgoing(lines, j, n)
    decreases j - i
  {
    if i == j {
    } else {
      OutgoingJoin(lines, i + 1, j, n);
    }
  }

  lemma {:induction false} WireIndexed(frames: seq<Bytes>)
    requires AllEndInLf(frames)
    ensures Indexed(WireOf(frames), |frames|)
  {
    if frames == [] {
    } else {
      var k := |frames| - 1;
      WireIndexed(frames[..k]);
      LinesAreLines(frames[k]);
      IndexFrame(WireOf(frames[..k]), k, LinesOf(frames[k]));
    }
  }

  lemma IndexFrame(w: Wire, n: nat, more: seq<Bytes>)
    requires Indexed(w, n)
    ensures Indexed(Wire(w.lines + more, w.ends + [|w.lines| + |more|], w.owner + seq(|more|, _ => n)), n + 1)
  {
    var all := Wire(w.lines + more, w.ends + [|w.lines| + |more|], w.owner + seq(|more|, _ => n));
    forall i, j | 0 <= i < j <= n + 1 ensures all.ends[i] <= all.ends[j] {
      assert i < n ==> w.ends[i] <= w.ends[n];
    }
  }

  lemma {:induction false} WireIsRight(frames: seq<Bytes>)
    requires AllEndInLf(frames)
    ensures Wired(frames, WireOf(frames))
  {
    WireIndexed(frames);
    if frames == [] {
    } else {
      var n := |frames| - 1;
      WireIndexed(frames[..n]);
      WireIsRight(frames[..n]);
      LinesAreLines(frames[n]);
      AddFrame(frames[..n], frames[n], WireOf(frames[..n]), LinesOf(frames[n]), WireOf(frames));
      assert frames[..n] + [frames[n]] == frames;
    }
  }

  /** A frame of one line has one line. */
  lemma {:induction false} OneLineFrame(frames: seq<Bytes>, k: nat)
    requires AllEndInLf(frames) && k < |frames| && OneLine(frames[k])
    ensures |WireOf(frames).ends| == |frames| + 1
    ensures WireOf(frames).ends[k + 1] == WireOf(frames).ends[k] + 1
  {
    WireIndexed(frames);
    var n := |frames| - 1;
    WireIndexed(frames[..n]);
    if k == n {
      OneLineIsItsLine(frames[n]);
    } else {
      OneLineFrame(frames[..n], k);
    }
  }

  /** A frame takes up lines exactly if there is anything to it. */
  lemma LinesTaken(frames: seq<Bytes>, w: Wire, k: nat)
    requires Wired(frames, w) && k < |frames|
    ensures w.ends[k] <= w.ends[k + 1] <= |w.lines|
    ensures w.ends[k] < w.ends[k + 1] <==> frames[k] != ""
  {
    assert Carries(frames, w, k);
    if w.ends[k] < w.ends[k + 1] {
      assert OneLine(w.lines[w.ends[k]]);
    }
  }

  lemma AddFrame(frames: seq<Bytes>, frame: Bytes, w: Wire, more: seq<Bytes>, all: Wire)
    requires Wired(frames, w) && Indexed(all, |frames| + 1)
    requires OneLines(more) && Outgoing(more, 0, |more|) == frame
    requires all.lines == w.lines + more && all.ends == w.ends + [|all.lines|]
    ensures Wired(frames + [frame], all)
  {
    hide OneLine, Outgoing;
    forall k | 0 <= k < |frames| + 1 ensures Carries(frames + [frame], all, k) {
      if k < |frames| {
        assert Carries(frames, w, k);
        OutgoingExtends(w.lines, more, w.ends[k], w.ends[k + 1]);
      } else {
        OutgoingShift(w.lines, more, 0, |more|);
      }
    }
  }

  /** Draining frame by frame is draining line by line. */
  lemma {:induction false} FramesReach<D>(b: Bench<D>, frames: seq<Bytes>, w: Wire, k: nat)
    requires Wired(frames, w) && k <= |frames|
    ensures w.ends[k] <= |w.lines| && DeviceBefore(b, frames, k) == DeviceAfter(b, w.lines, w.ends[k])
  {
    assert DeviceAfter(b, w.lines, 0) == b.start;
    hide Drain, DeviceAfter, OneLine, IndexOf, Outgoing, Answers;
    if k == 0 {
    } else {
      assert Carries(frames, w, k - 1);
      FramesReach(b, frames, w, k - 1);
      WholeFrame(b, w.lines, w.ends[k - 1], w.ends[k], frames[k - 1]);
    }
  }

  lemma FramesAreLines<D>(b: Bench<D>, frames: seq<Bytes>, w: Wire, k: nat)
    requires Wired(frames, w) && k < |frames|
    ensures w.ends[k] <= w.ends[k + 1] <= |w.lines|
    ensures FrameAnswer(b, frames, k) == Answers(b, w.lines, w.ends[k], w.ends[k + 1])
  {
    hide Drain, DeviceAfter, DeviceBefore, OneLine, IndexOf, Outgoing, Answers;
    assert Carries(frames, w, k);
    FramesReach(b, frames, w, k);
    WholeFrame(b, w.lines, w.ends[k], w.ends[k + 1], frames[k]);
  }

  lemma WholeFrame<D>(b: Bench<D>, lines: seq<Bytes>, i: nat, n: nat, frame: Bytes)
    requires i <= n <= |lines| && OneLines(lines) && frame == Outgoing(lines, i, n)
    ensures var d := Drain(b.dev, DeviceAfter(b, lines, i), frame);
            d.device == DeviceAfter(b, lines, n) && d.out == Answers(b, lines, i, n)
  {
    hide Drain, DeviceAfter, Answers, OneLine, IndexOf, Outgoing;
    assert frame + "" == frame;
    DrainTakesFrames(b, lines, i, n, frame, "");
    DrainLeavesNoLine(b.dev, DeviceAfter(b, lines, i), frame);
    var d := Drain(b.dev, DeviceAfter(b, lines, i), frame);
    assert d.rest + "" == d.rest;
    if i + d.lines < n {
      OutgoingHasLf(lines, i + d.lines, n);
    }
  }

  /** Where all is silent each line is. */
  lemma {:induction false} SilentLines<D>(b: Bench<D>, lines: seq<Bytes>, i: nat, n: nat, k: nat)
    requires i <= k < n <= |lines| && OneLines(lines) && Answers(b, lines, i, n) == ""
    ensures Answer(b, lines, k) == ""
    decreases n - i
  {
    hide Answer, OneLine;
    if i == k {
    } else {
      SilentLines(b, lines, i + 1, n, k);
    }
  }
}
