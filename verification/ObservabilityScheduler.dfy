/**
 * The observability scheduler as the object the server runs. Each method is proved to do what the state
 * machine of `Batches` does, so its theorems hold of this object.
 */
module ObservabilitySchedulers {
  import opened Batches

  class ObservabilityScheduler {
    var pending: map<Feed, seq<Entry>>
    var loops: map<Feed, Loop>
    ghost var emitted: map<Feed, seq<Entry>>
    ghost var sent: map<Feed, seq<Entry>>
    ghost var got: map<(Subscriber, Feed), seq<Entry>>
    ghost var base: map<(Subscriber, Feed), nat>

    ghost function View(): Scheduler
      reads this
    {
      Scheduler(pending, loops, emitted, sent, got, base)
    }

    constructor ()
      ensures View() == Initial()
    {
      pending, loops := map[], map[];
      emitted, sent, got, base := map[], map[], map[], map[];
    }

    /** The manager's `deviceErrors` and `transcript` listeners. */
    method OnEntries(f: Feed, entries: seq<Entry>)
      modifies this
      ensures View() == Emit(old(View()), f, entries)
    {
      var batch: seq<Entry> := [];
      if f in pending {
        batch := pending[f];
      }
      pending := pending[f := batch + entries];
      emitted := emitted[f := Get(emitted, f) + entries];
      ScheduleFlush(f);
    }

    method ScheduleFlush(f: Feed)
      modifies this`loops
      ensures View() == Schedule(old(View()), f)
    {
      if f !in loops || loops[f].subscribers == {} {
        return;
      }
      if loops[f].armed {
        return;
      }
      loops := loops[f := loops[f].(armed := true)];
    }

    method Subscribe(f: Feed, subscriber: Subscriber)
      modifies this
      ensures View() == Batches.Subscribe(old(View()), f, subscriber)
    {
      if f !in loops {
        loops := loops[f := Loop({}, false)];
      }
      loops := loops[f := loops[f].(subscribers := loops[f].subscribers + {subscriber})];
      got := got[(subscriber, f) := []];
      base := base[(subscriber, f) := |Get(sent, f)|];
      if f in pending && pending[f] != [] {
        ScheduleFlush(f);
      }
    }

    method Unsubscribe(f: Feed, subscriber: Subscriber)
      modifies this
      ensures View() == Batches.Unsubscribe(old(View()), f, subscriber)
    {
      if f !in loops {
        return;
      }
      loops := loops[f := loops[f].(subscribers := loops[f].subscribers - {subscriber})];
      if loops[f].subscribers == {} {
        loops := loops - {f};
      }
    }

    /** Visits every loop; the last subscriber out disarms the timer and takes the loop along. */
    method RemoveSubscriber(subscriber: Subscriber)
      requires forall f | f in loops :: loops[f].subscribers != {}
      modifies this
      ensures View() == Batches.RemoveSubscriber(old(View()), subscriber)
    {
      var feeds := loops.Keys;
      ghost var done: set<Feed> := {};
      while feeds != {}
        invariant done + feeds == old(loops.Keys) && done !! feeds
        invariant forall f ::
                    f in loops <==> f in old(loops) && (f in done ==> old(loops)[f].subscribers != {subscriber})
        invariant forall f | f in loops :: loops[f] == if f in done
                    then old(loops)[f].(subscribers := old(loops)[f].subscribers - {subscriber}) else old(loops)[f]
        invariant pending == old(pending) && emitted == old(emitted) && sent == old(sent)
        invariant got == old(got) && base == old(base)
      {
        var f :| f in feeds;
        var rest := loops[f].subscribers - {subscriber};
        if subscriber in loops[f].subscribers && rest == {} {
          assert loops[f].subscribers == {subscriber};
          loops := loops - {f};
        } else {
          loops := loops[f := loops[f].(subscribers := rest)];
        }
        feeds, done := feeds - {f}, done + {f};
      }
    }

    method RemoveSession(session: nat)
      modifies this
      ensures View() == Batches.RemoveSession(old(View()), session)
    {
      for i := 0 to 2
        invariant loops == old(loops) - (if i == 0 then {} else
                                         if i == 1 then {Feed(session, DeviceErrors)} else FeedsOf(session))
        invariant pending == old(pending) && emitted == old(emitted) && sent == old(sent)
        invariant got == old(got) && base == old(base)
      {
        var topic := if i == 0 then DeviceErrors else Transcript;
        loops := loops - {Feed(session, topic)};
      }
      pending := pending - {Feed(session, DeviceErrors)};
      pending := pending - {Feed(session, Transcript)};
      assert FeedsOf(session) == {Feed(session, DeviceErrors)} + {Feed(session, Transcript)};
      emitted, sent := emitted - FeedsOf(session), sent - FeedsOf(session);
    }

    /** The flush timer of a loop fires; `batch` is the message each of `to` is sent, if any. */
    method Fire(f: Feed) returns (batch: seq<Entry>, to: set<Subscriber>)
      requires f in loops && loops[f].armed
      modifies this
      ensures View() == Batches.Fire(old(View()), f)
      ensures batch == Get(old(pending), f) && to == if batch == [] then {} else old(loops)[f].subscribers
    {
      loops := loops[f := loops[f].(armed := false)];
      batch, to := [], {};
      if f !in pending || pending[f] == [] {
        return;
      }
      batch, to := pending[f], loops[f].subscribers;
      pending := pending - {f};
      sent := sent[f := Get(sent, f) + batch];
      got := map p | p in got.Keys + set x | x in to :: (x, f) ::
               if p.1 == f && p.0 in to then Get(got, p) + batch else got[p];
    }
  }
}
