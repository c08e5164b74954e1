/**
 * The Keysight E36 driver over a port to an instrument with a selected-channel register. A port call may
 * fail before or after the instrument has seen the command; what each call will do is fixed in advance.
 */
module KeysightE36s {
  import opened Common
  import opened Instruments
  import Kill = OutputKill

  /** `Lost`: rejected, and never seen by the instrument. `Late`: carried out, but rejected all the same. */
  datatype Fate = Fine | Lost | Late

  class ScpiPort {
    const fates: nat -> Fate
    var calls: nat
    var x: Instrument

    constructor (instrument: Instrument, fates: nat -> Fate)
      ensures x == instrument && this.fates == fates && calls == 0
    {
      x, this.fates, calls := instrument, fates, 0;
    }

    method Write(cmd: Command) returns (ok: bool)
      requires !cmd.Query?
      modifies this
      ensures calls == old(calls) + 1
      ensures ok == fates(old(calls)).Fine?
      ensures x == if fates(old(calls)).Lost? then old(x) else Execute(old(x), cmd)
    {
      if !fates(calls).Lost? {
        x := Execute(x, cmd);
      }
      ok := fates(calls).Fine?;
      calls := calls + 1;
    }

    /** A query the instrument does not answer fails at its deadline. */
    method Query(item: Item) returns (reply: Option<int>)
      modifies this`calls
      ensures calls == old(calls) + 1
      ensures reply == if fates(old(calls)).Fine? then Read(x, item) else None
    {
      reply := if fates(calls).Fine? then Read(x, item) else None;
      calls := calls + 1;
    }
  }

  /** What `getChannels` reports of one channel. */
  datatype ChannelState = ChannelState(
    id: nat, setVoltage: int, setCurrent: int, measuredVoltage: int, measuredCurrent: int, output: bool)

  function StateOf(id: nat, c: Channel): ChannelState {
    ChannelState(id, c.setVoltage, c.setCurrent, c.measuredVoltage, c.measuredCurrent, c.output)
  }

  /** `y` is `x` with some outputs switched off, perhaps none, and the register anywhere. */
  ghost predicate OnlySwitchedOff(x: Instrument, y: Instrument) {
    && y.channels.Keys == x.channels.Keys
    && forall c | c in x.channels ::
         y.channels[c] == x.channels[c] || y.channels[c] == x.channels[c].(output := false)
  }

  lemma SameOutputs(x: Instrument, y: Instrument)
    requires y.channels == x.channels
    ensures OnlySwitchedOff(x, y)
  {
  }

  lemma SwitchedOffTwice(x: Instrument, y: Instrument, z: Instrument)
    requires OnlySwitchedOff(x, y) && OnlySwitchedOff(y, z)
    ensures OnlySwitchedOff(x, z)
    ensures forall c | c in x.channels && !y.channels[c].output :: !z.channels[c].output
  {
    forall c | c in x.channels
      ensures z.channels[c] == x.channels[c] || z.channels[c] == x.channels[c].(output := false)
      ensures !y.channels[c].output ==> !z.channels[c].output
    {
      assert c in y.channels;
    }
  }

  /** Nothing but the register may differ. */
  predicate SameButSelected(x: Instrument, y: Instrument) {
    y.channels == x.channels && y.tracking == x.tracking
  }

  class KeysightE36 {
    const port: ScpiPort
    const channelIds: seq<nat>
    const hasTracking: bool

    constructor (port: ScpiPort, channelIds: seq<nat>, hasTracking: bool)
      ensures this.port == port && this.channelIds == channelIds && this.hasTracking == hasTracking
    {
      this.port, this.channelIds, this.hasTracking := port, channelIds, hasTracking;
    }

    /** No call from now on fails, and the instrument has all the driver's channels. */
    ghost predicate Healthy()
      reads port
    {
      (forall k: nat :: port.fates(k).Fine?) && forall i | 0 <= i < |channelIds| :: channelIds[i] in port.x.channels
    }

    method SelectChannel(channel: nat) returns (ok: bool)
      modifies port
      ensures SameButSelected(old(port.x), port.x)
      ensures ok && channel in port.x.channels ==> port.x.selected == channel
      ensures (forall k: nat :: port.fates(k).Fine?) ==> ok
    {
      ok := port.Write(Select(channel));
    }

    /** All five queries are sent; if one fails, so does the read. */
    method ReadChannel(id: nat) returns (r: Option<ChannelState>)
      modifies port
      ensures SameButSelected(old(port.x), port.x)
      ensures r.Some? && id in port.x.channels ==> r.value == StateOf(id, port.x.channels[id])
      ensures (forall k: nat :: port.fates(k).Fine?) && id in port.x.channels ==> r.Some?
    {
      var ok := SelectChannel(id);
      if !ok {
        return None;
      }
      var setV := port.Query(Voltage);
      var setI := port.Query(Current);
      var measV := port.Query(MeasuredVoltage);
      var measI := port.Query(MeasuredCurrent);
      var out := port.Query(OutputState);
      if setV.None? || setI.None? || measV.None? || measI.None? || out.None? {
        return None;
      }
      r := Some(ChannelState(id, setV.value, setI.value, measV.value, measI.value, out.value == 1));
    }

    /**
     * Run alone, `getChannels` changes nothing but the register, reports each channel's own values if it
     * reports at all, and does report when no call fails.
     */
    method GetChannels() returns (r: Option<seq<ChannelState>>)
      modifies port
      ensures SameButSelected(old(port.x), port.x)
      ensures r.Some? ==> |r.value| == |channelIds| && forall i | 0 <= i < |channelIds| ::
                && r.value[i].id == channelIds[i]
                && (channelIds[i] in port.x.channels ==>
                      r.value[i] == StateOf(channelIds[i], port.x.channels[channelIds[i]]))
      ensures old(Healthy()) ==> r.Some?
    {
      var out: seq<ChannelState> := [];
      for i := 0 to |channelIds|
        invariant SameButSelected(old(port.x), port.x)
        invariant |out| == i
        invariant forall k | 0 <= k < i ::
                    && out[k].id == channelIds[k]
                    && (channelIds[k] in port.x.channels ==>
                          out[k] == StateOf(channelIds[k], port.x.channels[channelIds[k]]))
      {
        var state := ReadChannel(channelIds[i]);
        if state.None? {
          return None;
        }
        out := out + [state.value.(id := channelIds[i])];
      }
      r := Some(out);
    }

    method SetChannelOutput(channel: nat, on: bool) returns (ok: bool)
      modifies port
      ensures port.x.tracking == old(port.x.tracking)
      ensures !on ==> OnlySwitchedOff(old(port.x), port.x)
      ensures ok && channel in old(port.x.channels) ==>
                port.x.channels == old(port.x.channels)[channel := old(port.x.channels)[channel].(output := on)]
      ensures (forall k: nat :: port.fates(k).Fine?) ==> ok
    {
      ok := SelectChannel(channel);
      if ok {
        ok := port.Write(Output(on));
      }
    }

    /** A failed query reads as "not tracking". */
    method GetTracking() returns (on: bool)
      modifies port`calls
      ensures on ==> hasTracking && port.x.tracking
      ensures (forall k: nat :: port.fates(k).Fine?) && hasTracking ==> on == port.x.tracking
    {
      if !hasTracking {
        return false;
      }
      var raw := port.Query(TrackingState);
      on := raw == Some(1);
    }

    method SetTracking(on: bool) returns (ok: bool)
      modifies port
      ensures port.x == old(port.x) || port.x == old(port.x).(tracking := on)
      ensures ok && hasTracking ==> port.x.tracking == on
      ensures (forall k: nat :: port.fates(k).Fine?) ==> ok
    {
      if !hasTracking {
        return true;
      }
      ok := port.Write(Track(on));
    }

    /** Select, then three queries; a failed trip query reads as "not tripped". */
    method GetProtection(channel: nat, k: Kind) returns (r: Option<Protection>)
      modifies port
      ensures SameButSelected(old(port.x), port.x)
      ensures r.Some? && channel in port.x.channels ==>
                var p := ProtectionOf(port.x.channels[channel], k);
                r.value == p || r.value == p.(tripped := 0)
      ensures (forall n: nat :: port.fates(n).Fine?) && channel in port.x.channels ==>
                r == Some(ProtectionOf(port.x.channels[channel], k))
    {
      var ok := SelectChannel(channel);
      if !ok {
        return None;
      }
      var enabled := port.Query(ProtectionState(k));
      var level := port.Query(ProtectionLevel(k));
      var tripped := port.Query(ProtectionTripped(k));
      if enabled.None? || level.None? {
        return None;
      }
      r := Some(Protection(enabled.value, level.value, if tripped.Some? then tripped.value else 0));
    }
  }

  /**
   * `runPsuDisableAll`. Whatever calls fail, and however: outputs are only ever switched off and setpoints
   * stay as they were; every channel reported as touched is off at the end; if the channels could be read,
   * each is reported exactly once, as touched or as an error; and when no call fails, every channel is
   * touched, so every channel is off.
   */
  method RunPsuDisableAll(psu: KeysightE36) returns (r: Kill.KillResult)
    modifies psu.port
    ensures OnlySwitchedOff(old(psu.port.x), psu.port.x)
    ensures psu.port.x.tracking ==> old(psu.port.x.tracking)
    ensures forall c | c in r.touched && c in psu.port.x.channels :: !psu.port.x.channels[c].output
    ensures r == Kill.Classify(r.touched, r.errors)
    ensures Kill.Whole !in r.errors ==> Kill.AccountsFor(psu.channelIds, r.touched, r.errors)
    ensures Kill.Whole in r.errors ==> r.touched == []
    ensures old(psu.Healthy()) ==> r.kind == Kill.Ok && r.touched == psu.channelIds
    ensures old(psu.Healthy()) && psu.hasTracking ==> !psu.port.x.tracking
  {
    hide Kill.AccountsFor;
    hide OnlySwitchedOff;
    var touched: seq<nat>, errors: seq<Kill.Target> := [], [];
    if psu.hasTracking {
      var tracking := psu.GetTracking();
      if tracking {
        var ok := psu.SetTracking(false);
        if !ok {
          errors := errors + [Kill.TrackingMode];
        }
      }
    }
    label Ready:
    var channels := psu.GetChannels();
    SameOutputs(old(psu.port.x), psu.port.x);
    if channels.None? {
      errors := errors + [Kill.Whole];
    } else {
      var ids := psu.channelIds;
      Kill.NoneYet(errors);
      assert ids[..0] == [];
      for i := 0 to |ids|
        invariant OnlySwitchedOff(old(psu.port.x), psu.port.x)
        invariant psu.port.x.tracking == old@Ready(psu.port.x.tracking)
        invariant forall c | c in touched && c in psu.port.x.channels :: !psu.port.x.channels[c].output
        invariant Kill.AccountsFor(ids[..i], touched, errors)
        invariant Kill.Whole !in errors
        invariant old(psu.Healthy()) ==> errors == [] && touched == ids[..i]
      {
        var id := channels.value[i].id;
        label Before:
        var ok := psu.SetChannelOutput(id, false);
        SwitchedOffTwice(old(psu.port.x), old@Before(psu.port.x), psu.port.x);
        Kill.OneMore(ids[..i], touched, errors, id);
        assert ids[..i + 1] == ids[..i] + [id];
        if ok {
          touched := touched + [id];
        } else {
          errors := errors + [Kill.Channel(id)];
        }
      }
      assert ids[..|ids|] == ids;
    }
    r := Kill.Classify(touched, errors);
  }
}
