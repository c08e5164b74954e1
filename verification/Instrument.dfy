/**
 * A multi-channel power supply with one selected-channel register, and command streams that reach it.
 * Every command but the selection itself acts on, or reads, the channel selected at that moment, so
 * streams that share the instrument can disturb each other.
 */
module Instruments {
  import opened Common

  datatype Kind = Ovp | Ocp

  datatype Protection = Protection(enabled: int, level: int, tripped: int)

  /** One output channel; readings are opaque numbers. */
  datatype Channel = Channel(
    setVoltage: int,
    setCurrent: int,
    measuredVoltage: int,
    measuredCurrent: int,
    output: bool,
    ovp: Protection,
    ocp: Protection)

  datatype Instrument = Instrument(selected: nat, tracking: bool, channels: map<nat, Channel>)

  datatype Item =
    | Voltage
    | Current
    | MeasuredVoltage
    | MeasuredCurrent
    | OutputState
    | TrackingState
    | ProtectionState(kind: Kind)
    | ProtectionLevel(kind: Kind)
    | ProtectionTripped(kind: Kind)

  datatype Command =
    | Select(channel: nat)
    | Output(on: bool)
    | Track(on: bool)
    | Query(item: Item)

  function BoolReply(b: bool): int {
    if b then 1 else 0
  }

  function Read(x: Instrument, item: Item): Option<int> {
    if item.TrackingState? then Some(BoolReply(x.tracking))
    else if x.selected !in x.channels then None
    else
      var c := x.channels[x.selected];
      match item
      case Voltage => Some(c.setVoltage)
      case Current => Some(c.setCurrent)
      case MeasuredVoltage => Some(c.measuredVoltage)
      case MeasuredCurrent => Some(c.measuredCurrent)
      case OutputState => Some(BoolReply(c.output))
      case TrackingState => None
      case ProtectionState(k) => Some((if k == Ovp then c.ovp else c.ocp).enabled)
      case ProtectionLevel(k) => Some((if k == Ovp then c.ovp else c.ocp).level)
      case ProtectionTripped(k) => Some((if k == Ovp then c.ovp else c.ocp).tripped)
  }

  /** Selecting a channel the instrument does not have is ignored. */
  function Execute(x: Instrument, cmd: Command): Instrument {
    match cmd
    case Select(c) => if c in x.channels then x.(selected := c) else x
    case Output(on) =>
      if x.selected !in x.channels then x
      else x.(channels := x.channels[x.selected := x.channels[x.selected].(output := on)])
    case Track(on) => x.(tracking := on)
    case Query(_) => x
  }

  /** What a stream is answered, query by query; other commands draw no reply. */
  function Answered(x: Instrument, cmd: Command): seq<Option<int>> {
    if cmd.Query? then [Read(x, cmd.item)] else []
  }

  function Replies(x: Instrument, cmds: seq<Command>): seq<Option<int>>
    decreases |cmds|
  {
    if cmds == [] then [] else Answered(x, cmds[0]) + Replies(Execute(x, cmds[0]), cmds[1..])
  }

  function After(x: Instrument, cmds: seq<Command>): Instrument
    decreases |cmds|
  {
    if cmds == [] then x else After(Execute(x, cmds[0]), cmds[1..])
  }

  lemma AfterSplit(x: Instrument, a: seq<Command>, b: seq<Command>)
    ensures After(x, a + b) == After(After(x, a), b)
    decreases |a|
  {
    if a == [] {
      assert a + b == b;
    } else {
      assert (a + b)[1..] == a[1..] + b;
      AfterSplit(Execute(x, a[0]), a[1..], b);
    }
  }

  // ---------------------------------------------------------------------------
  // Two streams sharing the instrument
  // ---------------------------------------------------------------------------

  /** One command of an interleaving, marked with the stream it belongs to. */
  datatype Sent = Sent(left: bool, command: Command)

  function Project(m: seq<Sent>, left: bool): seq<Command> {
    if m == [] then []
    else (if m[0].left == left then [m[0].command] else []) + Project(m[1..], left)
  }

  /** What one of the two streams is answered during an interleaving. */
  function RepliesTo(x: Instrument, m: seq<Sent>, left: bool): seq<Option<int>>
    decreases |m|
  {
    if m == [] then []
    else
      (if m[0].left == left then Answered(x, m[0].command) else [])
      + RepliesTo(Execute(x, m[0].command), m[1..], left)
  }

  /** A stream that reads one channel: it selects no other, and changes nothing. */
  predicate ReadsOnly(cmds: seq<Command>, c: nat) {
    forall i | 0 <= i < |cmds| :: cmds[i] == Select(c) || cmds[i].Query?
  }

  /** The register is where selecting `c` puts it. */
  predicate Chosen(x: Instrument, c: nat) {
    c in x.channels ==> x.selected == c
  }

  /** The replies to a read-only stream do not depend on where the register was before it selects. */
  predicate Settled(x: Instrument, cmds: seq<Command>, c: nat) {
    cmds == [] || cmds[0] == Select(c) || Chosen(x, c)
  }

  lemma ProjectHead(m: seq<Sent>, left: bool)
    requires m != []
    ensures m[0].left == left ==>
              && Project(m, left) != []
              && Project(m, left)[0] == m[0].command && Project(m, left)[1..] == Project(m[1..], left)
    ensures m[0].left != left ==> Project(m, left) == Project(m[1..], left)
  {
  }

  /** A read-only command of someone else does not change what a settled stream will be answered. */
  lemma SelectingTwice(x: Instrument, cmd: Command, cmds: seq<Command>, c: nat)
    requires cmd == Select(c) || cmd.Query?
    requires Settled(x, cmds, c)
    ensures Settled(Execute(x, cmd), cmds, c)
    ensures Replies(Execute(x, cmd), cmds) == Replies(x, cmds)
  {
    if cmds != [] && cmds[0] == Select(c) {
      assert Execute(Execute(x, cmd), cmds[0]) == Execute(x, cmds[0]);
    } else {
      assert cmds != [] ==> Execute(x, cmd) == x;
    }
  }

  /** However two read-only streams on one channel are interleaved, each is answered as if it were alone. */
  lemma {:induction false} OthersDoNotDisturb(x: Instrument, m: seq<Sent>, left: bool, c: nat)
    requires ReadsOnly(Project(m, true), c) && ReadsOnly(Project(m, false), c)
    requires Settled(x, Project(m, left), c)
    ensures RepliesTo(x, m, left) == Replies(x, Project(m, left))
    decreases |m|
  {
    if m == [] {
    } else {
      var cmd, rest := m[0].command, m[1..];
      ProjectHead(m, true);
      ProjectHead(m, false);
      assert cmd == Select(c) || cmd.Query?;
      if m[0].left != left {
        SelectingTwice(x, cmd, Project(rest, left), c);
      }
      OthersDoNotDisturb(Execute(x, cmd), rest, left, c);
    }
  }

  /** `getProtection`: select the channel, then ask for state, level and trip flag. */
  function ProtectionScript(c: nat, k: Kind): seq<Command> {
    [Select(c), Query(ProtectionState(k)), Query(ProtectionLevel(k)), Query(ProtectionTripped(k))]
  }

  function ProtectionOf(ch: Channel, k: Kind): Protection {
    if k == Ovp then ch.ovp else ch.ocp
  }

  lemma ProtectionAlone(x: Instrument, c: nat, k: Kind)
    requires c in x.channels
    ensures Replies(x, ProtectionScript(c, k)) ==
            (var p := ProtectionOf(x.channels[c], k); [Some(p.enabled), Some(p.level), Some(p.tripped)])
    ensures After(x, ProtectionScript(c, k)) == x.(selected := c)
  {
    var s := ProtectionScript(c, k);
    var y := x.(selected := c);
    assert s[1..] == [Query(ProtectionState(k)), Query(ProtectionLevel(k)), Query(ProtectionTripped(k))];
    assert s[1..][1..] == [Query(ProtectionLevel(k)), Query(ProtectionTripped(k))];
    assert s[1..][1..][1..] == [Query(ProtectionTripped(k))];
    assert Replies(y, s[1..][1..][1..]) == [Read(y, ProtectionTripped(k))];
    assert Replies(y, s[1..][1..]) == [Read(y, ProtectionLevel(k))] + Replies(y, s[1..][1..][1..]);
    assert Replies(y, s[1..]) == [Read(y, ProtectionState(k))] + Replies(y, s[1..][1..]);
    assert After(y, s[1..][1..][1..]) == y;
    assert After(y, s[1..][1..]) == y;
  }

  /**
   * The `psu.protection` topic asks for both protections of one channel at once. However the two streams
   * of commands are interleaved, each gets the replies it would get if they were run one after the other:
   * the channel's own values.
   */
  lemma ProtectionReadsCommute(x: Instrument, m: seq<Sent>, c: nat)
    requires c in x.channels
    requires Project(m, true) == ProtectionScript(c, Ovp) && Project(m, false) == ProtectionScript(c, Ocp)
    ensures RepliesTo(x, m, true) == Replies(x, ProtectionScript(c, Ovp)) ==
            [Some(x.channels[c].ovp.enabled), Some(x.channels[c].ovp.level), Some(x.channels[c].ovp.tripped)]
    ensures RepliesTo(x, m, false) == Replies(After(x, ProtectionScript(c, Ovp)), ProtectionScript(c, Ocp)) ==
            [Some(x.channels[c].ocp.enabled), Some(x.channels[c].ocp.level), Some(x.channels[c].ocp.tripped)]
  {
    OthersDoNotDisturb(x, m, true, c);
    OthersDoNotDisturb(x, m, false, c);
    ProtectionAlone(x, c, Ovp);
    ProtectionAlone(x, c, Ocp);
    ProtectionAlone(After(x, ProtectionScript(c, Ovp)), c, Ocp);
  }

  // ---------------------------------------------------------------------------
  // What a foreign selection does to select-then-act
  // ---------------------------------------------------------------------------

  /** The channel the register is left on by `mid`, if it was on `c`: the last known channel selected. */
  function LastPick(known: set<nat>, c: nat, mid: seq<Command>): nat
    decreases |mid|
  {
    if mid == [] then c
    else LastPick(known, if mid[0].Select? && mid[0].channel in known then mid[0].channel else c, mid[1..])
  }

  /** Commands of others that select and read, such as a poll of the channels. */
  predicate OnlyReads(cmds: seq<Command>) {
    forall i | 0 <= i < |cmds| :: cmds[i].Select? || cmds[i].Query?
  }

  lemma {:induction false} ReadsMoveTheRegister(x: Instrument, mid: seq<Command>)
    requires OnlyReads(mid)
    ensures After(x, mid) == x.(selected := LastPick(x.channels.Keys, x.selected, mid))
    decreases |mid|
  {
    if mid == [] {
    } else {
      assert mid[0].Select? || mid[0].Query?;
      ReadsMoveTheRegister(Execute(x, mid[0]), mid[1..]);
    }
  }

  /**
   * `setChannelOutput(c, false)` with other streams' reads between its two commands switches off the
   * channel selected last, and no other. So it switches off `c`, unless that was off already, exactly when
   * no read of another channel came in between without `c` being selected again.
   */
  lemma OffReachesItsChannel(x: Instrument, c: nat, mid: seq<Command>)
    requires c in x.channels && OnlyReads(mid)
    ensures var hit := LastPick(x.channels.Keys, c, mid); var y := After(x, [Select(c)] + mid + [Output(false)]);
            && hit in x.channels && y.channels == x.channels[hit := x.channels[hit].(output := false)]
            && (!y.channels[c].output <==> hit == c || !x.channels[c].output)
  {
    LastPickKnown(x.channels.Keys, c, mid);
    var y := x.(selected := c);
    assert After(x, [Select(c)]) == y by {
      assert [Select(c)][1..] == [];
    }
    AfterSplit(x, [Select(c)] + mid, [Output(false)]);
    AfterSplit(x, [Select(c)], mid);
    ReadsMoveTheRegister(y, mid);
    assert [Output(false)][1..] == [];
  }

  lemma LastPickKnown(known: set<nat>, c: nat, mid: seq<Command>)
    requires c in known
    ensures LastPick(known, c, mid) in known
    decreases |mid|
  {
  }

  /** A poll of another channel in between diverts it: `c` stays on, and `d` is switched off instead. */
  lemma PollDivertsDisable(x: Instrument, c: nat, d: nat)
    requires c in x.channels && d in x.channels && c != d && x.channels[c].output
    ensures var y := After(x, [Select(c)] + [Select(d)] + [Output(false)]);
            c in y.channels && d in y.channels && y.channels[c].output && !y.channels[d].output
  {
    assert LastPick(x.channels.Keys, c, [Select(d)]) == d by {
      assert [Select(d)][1..] == [];
    }
    OffReachesItsChannel(x, c, [Select(d)]);
  }
}
