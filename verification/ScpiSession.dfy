/**
 * The SCPI session as the object the program runs: the same queue, buffer, in-flight slot and closed
 * flag, updated in place. Every method is proved to move the session exactly as the state machine of
 * `ScpiHost` says, so the theorems about its runs hold of this object.
 */
module ScpiSessions {
  import opened Common
  import opened Framing
  import ScpiHost
  import opened ByteArrays

  class ScpiSession {
    const terminator: Bytes
    var jobs: seq<ScpiHost.Job>
    var queue: seq<nat>
    var inFlight: Option<nat>
    var buffer: Bytes
    var closed: bool
    var sends: set<nat>
    var armed: set<nat>
    var frames: seq<Bytes>
    var settled: seq<ScpiHost.Settlement>

    ghost function View(): ScpiHost.Host
      reads this
    {
      ScpiHost.Host(terminator, jobs, queue, inFlight, buffer, closed, sends, armed, frames, settled)
    }

    constructor (terminator: Bytes)
      ensures View() == ScpiHost.Initial(terminator)
    {
      this.terminator := terminator;
      jobs, queue, inFlight, buffer, closed := [], [], None, "", false;
      sends, armed, frames, settled := {}, {}, [], [];
    }

    /** Accepts a job, or rejects it at once when the session is closed. */
    method Enqueue(job: ScpiHost.Job) returns (accepted: bool)
      requires ScpiHost.WellFormed(View())
      modifies this
      ensures View() == ScpiHost.Enqueue(old(View()), job)
      ensures accepted == !old(closed)
    {
      if closed {
        return false;
      }
      jobs := jobs + [job];
      queue := queue + [|jobs| - 1];
      Pump();
      return true;
    }

    method Pump()
      requires forall id | id in queue :: id < |jobs|
      modifies this
      ensures View() == ScpiHost.Pump(old(View()))
    {
      if inFlight.Some? || queue == [] || closed {
        return;
      }
      var id := queue[0];
      assert id in queue;
      var framed := BuildFrame(jobs[id], terminator);
      queue := queue[1..];
      inFlight := Some(id);
      sends := sends + {id};
      frames := frames + [framed[..]];
    }

    method FinishInFlight(outcome: ScpiHost.Outcome)
      requires forall id | id in queue :: id < |jobs|
      modifies this
      ensures View() == ScpiHost.Finish(old(View()), outcome)
    {
      if inFlight.None? {
        return;
      }
      var id := inFlight.value;
      inFlight := None;
      armed := armed - {id};
      settled := settled + [ScpiHost.Settlement(id, outcome)];
      Pump();
    }

    /** Takes one line off the buffer, without its LF and a CR before it. */
    method ConsumeLine() returns (line: Option<Bytes>)
      modifies this`buffer
      ensures match ParseLine(old(buffer))
              case NeedMore => line == None && buffer == old(buffer)
              case Got(value, rest) => line == Some(value) && buffer == rest
              case Malformed => false
    {
      var index := 0;
      while index < |buffer| && buffer[index] != '\n'
        invariant 0 <= index <= |buffer|
        invariant forall k :: 0 <= k < index ==> buffer[k] != '\n'
      {
        index := index + 1;
      }
      if index == |buffer| {
        return None;
      }
      var slice := buffer[..index];
      buffer := buffer[index + 1..];
      if slice != "" && slice[|slice| - 1] == '\r' {
        slice := slice[..|slice| - 1];
      }
      return Some(slice);
    }

    /** Takes one definite-length block off the buffer, with the LF after it if that has arrived. */
    method ConsumeBinaryBlock() returns (result: Parse)
      modifies this`buffer
      ensures result == ParseBlock(old(buffer))
      ensures buffer == if result.Got? then result.rest else old(buffer)
    {
      result := Cut(BlockHeader(buffer));
    }

    method Cut(header: Header) returns (result: Parse)
      modifies this`buffer
      ensures result == CutBlock(header, old(buffer))
      ensures buffer == if result.Got? then result.rest else old(buffer)
    {
      if header.Short? {
        return NeedMore;
      }
      if header.Wrong? {
        return Malformed;
      }
      var nextStart := header.headerSize + header.length;
      if |buffer| < nextStart {
        return NeedMore;
      }
      var body := buffer[header.headerSize..nextStart];
      if |buffer| > nextStart && buffer[nextStart] == '\n' {
        nextStart := nextStart + 1;
      }
      buffer := buffer[nextStart..];
      return Got(body, buffer);
    }

    method TryDeliver()
      requires ScpiHost.WellFormed(View())
      modifies this
      ensures View() == ScpiHost.TryDeliver(old(View()))
    {
      if inFlight.None? {
        return;
      }
      match jobs[inFlight.value].mode
      case NoReply =>
      case Line =>
        var line := ConsumeLine();
        if line.Some? {
          FinishInFlight(ScpiHost.Answered(line.value));
        }
      case Block =>
        var result := ConsumeBinaryBlock();
        if result.Got? {
          FinishInFlight(ScpiHost.Answered(result.value));
        } else if result.Malformed? {
          FinishInFlight(ScpiHost.Rejected(ScpiHost.Protocol));
        }
    }

    method HandleData(chunk: Bytes)
      requires ScpiHost.WellFormed(View())
      modifies this
      ensures View() == ScpiHost.HandleData(old(View()), chunk)
    {
      if closed {
        return;
      }
      buffer := buffer + chunk;
      TryDeliver();
    }

    /** The pump of job `id` resumes: the transport has taken its frame. */
    method OnSent(id: nat)
      requires ScpiHost.WellFormed(View()) && id in sends
      modifies this
      ensures View() == ScpiHost.SendSettled(old(View()), id)
    {
      sends := sends - {id};
      if jobs[id].mode == NoReply {
        FinishInFlight(ScpiHost.Done);
      } else {
        if jobs[id].timeoutMs > 0 {
          armed := armed + {id};
        }
        TryDeliver();
      }
    }

    /** The pump of job `id` resumes with an error. */
    method OnRefused(id: nat)
      requires ScpiHost.WellFormed(View()) && id in sends
      modifies this
      ensures View() == ScpiHost.SendRejected(old(View()), id)
    {
      sends := sends - {id};
      FinishInFlight(ScpiHost.Rejected(ScpiHost.SendFailed));
    }

    method OnDeadline(id: nat)
      requires ScpiHost.WellFormed(View()) && id in armed
      modifies this
      ensures View() == ScpiHost.DeadlineFired(old(View()), id)
    {
      armed := armed - {id};
      if inFlight == Some(id) {
        FinishInFlight(ScpiHost.Rejected(ScpiHost.TimedOut));
      }
    }

    /** Empties the queue from the front, rejecting each job. */
    method RejectQueue(error: ScpiHost.Error)
      modifies this`queue, this`settled
      ensures queue == []
      ensures settled == old(settled) + ScpiHost.RejectAll(old(queue), error)
    {
      ghost var done: seq<nat> := [];
      while queue != []
        invariant done + queue == old(queue)
        invariant settled == old(settled) + ScpiHost.RejectAll(done, error)
        decreases |queue|
      {
        settled := settled + [ScpiHost.Settlement(queue[0], ScpiHost.Rejected(error))];
        done := done + [queue[0]];
        queue := queue[1..];
      }
    }

    method Close()
      modifies this
      ensures View() == ScpiHost.Close(old(View()))
    {
      if closed {
        return;
      }
      closed := true;
      if inFlight.Some? {
        settled := settled + [ScpiHost.Settlement(inFlight.value, ScpiHost.Rejected(ScpiHost.Closed))];
        inFlight := None;
      }
      RejectQueue(ScpiHost.Closed);
    }

    method HandleClose()
      requires ScpiHost.WellFormed(View())
      modifies this
      ensures View() == ScpiHost.HandleClose(old(View()))
    {
      if closed {
        return;
      }
      closed := true;
      FinishInFlight(ScpiHost.Rejected(ScpiHost.Lost));
      RejectQueue(ScpiHost.Lost);
    }
  }

  /** `#sendCommand` and `#sendBinary`: the parts of a frame are set into one byte array. */
  method BuildFrame(job: ScpiHost.Job, terminator: Bytes) returns (framed: array<char>)
    ensures fresh(framed) && framed[..] == ScpiHost.Frame(job, terminator)
    ensures ScpiHost.Conveys(framed[..], job, terminator)
  {
    ScpiHost.FrameConveys(job, terminator);
    hide ScpiHost.Conveys;
    match job.payload
    case Text(command) =>
      framed := SetAll([command, terminator]);
      Flatten4(command, terminator, "", "");
    case Binary(command, data) =>
      var lengthDigits := Decimal(|data|);
      var header := "#" + Decimal(|lengthDigits|) + lengthDigits;
      framed := SetAll([command, header, data, terminator]);
      Flatten4(command, header, data, terminator);
      assert command + header + data + terminator == command + (header + data) + terminator;
  }
}

/** `Uint8Array.set` and the simulator's block encoder built with it. */
module ByteArrays {
  import opened Common
  import opened Framing

  method SetBytes(target: array<char>, offset: nat, source: Bytes)
    requires offset + |source| <= target.Length
    modifies target
    ensures target[..] == old(target[..offset]) + source + old(target[offset + |source|..])
  {
    var i := 0;
    while i < |source|
      invariant 0 <= i <= |source|
      invariant target[..offset] == old(target[..offset])
      invariant target[offset..offset + i] == source[..i]
      invariant target[offset + i..] == old(target[offset + i..])
    {
      target[offset + i] := source[i];
      i := i + 1;
    }
    assert target[..] == target[..offset] + target[offset..offset + |source|] + target[offset + |source|..];
  }

  function Flatten(parts: seq<Bytes>): Bytes {
    if parts == [] then "" else Flatten(parts[..|parts| - 1]) + parts[|parts| - 1]
  }

  lemma Flatten4(a: Bytes, b: Bytes, c: Bytes, d: Bytes)
    ensures Flatten([a, b]) == a + b
    ensures Flatten([a, b, c, d]) == a + b + c + d
  {
    assert [a, b, c, d][..3] == [a, b, c];
    assert [a, b, c][..2] == [a, b];
    assert [a, b][..1] == [a] && [a][..0] == [];
    assert Flatten([a]) == Flatten([]) + a == a;
  }

  /** Allocates one array for all parts and sets each at the offset where the one before it ends. */
  method SetAll(parts: seq<Bytes>) returns (out: array<char>)
    ensures fresh(out) && out[..] == Flatten(parts)
  {
    var size := 0;
    for i := 0 to |parts|
      invariant size == |Flatten(parts[..i])|
    {
      assert parts[..i + 1][..i] == parts[..i];
      size := size + |parts[i]|;
    }
    assert parts[..|parts|] == parts;
    out := new char[size](_ => '\0');
    var offset := 0;
    for i := 0 to |parts|
      invariant offset == |Flatten(parts[..i])| <= out.Length
      invariant offset + |Flatten(parts)| == |Flatten(parts[..i])| + out.Length
      invariant out[..offset] == Flatten(parts[..i])
    {
      assert parts[..i + 1][..i] == parts[..i];
      FlattenGrows(parts, i + 1);
      SetBytes(out, offset, parts[i]);
      offset := offset + |parts[i]|;
    }
  }

  lemma {:induction false} FlattenGrows(parts: seq<Bytes>, i: nat)
    requires i <= |parts|
    ensures |Flatten(parts[..i])| <= |Flatten(parts)|
    decreases |parts| - i
  {
    if i < |parts| {
      FlattenGrows(parts, i + 1);
      assert parts[..i + 1][..i] == parts[..i];
    } else {
      assert parts[..i] == parts;
    }
  }

  /** The simulator refuses payloads whose length needs more than nine digits. */
  method EncodeIeee488Block(bytes: Bytes) returns (out: Option<array<char>>)
    ensures out.Some? <==> |bytes| < Pow10(9)
    ensures out.Some? ==> fresh(out.value) && out.value[..] == EncodeBlock(bytes)
  {
    var lenStr := Decimal(|bytes|);
    DecimalLength(|bytes|, 9);
    if |lenStr| > 9 {
      return None;
    }
    var header := "#" + Decimal(|lenStr|) + lenStr;
    var block := SetAll([header, bytes]);
    Flatten4(header, bytes, "", "");
    return Some(block);
  }
}
