/**
 * The reading scheduler as the object the server runs. Each method is proved to do what the state
 * machine of `ReadingLoops` does, so its theorems hold of this object.
 */
module ReadingSchedulers {
  import opened Common
  import opened ReadingLoops

  class ReadingScheduler {
    var objects: seq<Loop>
    var loops: map<Key, nat>
    var timers: set<nat>
    var pending: multiset<nat>
    ghost var log: seq<Delivery>
    ghost var since: map<(Subscriber, Key), nat>
    ghost var removed: set<nat>

    ghost function View(): Scheduler
      reads this
    {
      Scheduler(objects, loops, timers, pending, log, since, removed)
    }

    constructor ()
      ensures View() == Initial()
    {
      objects, loops, timers, pending := [], map[], {}, multiset{};
      log, since, removed := [], map[], {};
    }

    method Subscribe(key: Key, subscriber: Subscriber)
      requires InRange(View())
      modifies this
      ensures View() == ReadingLoops.Subscribe(old(View()), key, subscriber)
    {
      var existed := key in loops;
      if !existed {
        loops := loops[key := |objects|];
        objects := objects + [Loop(key, {}, None, None, false)];
      }
      var l := loops[key];
      var loop := objects[l];
      objects := objects[l := loop.(subscribers := loop.subscribers + {subscriber})];
      since := since[(subscriber, key) := |log|];
      assert {} + {subscriber} == {subscriber};
      assert !existed ==> objects == old(objects) + [Loop(key, {subscriber}, None, None, false)];
      if loop.lastPayload.Some? {
        Send({subscriber}, key, Update(loop.lastPayload.value));
      } else if loop.lastError.Some? {
        Send({subscriber}, key, Failure(loop.lastError.value));
      }
      if !existed {
        timers := timers + {l};
        Tick(l);
      }
    }

    method Unsubscribe(key: Key, subscriber: Subscriber)
      requires InRange(View())
      modifies this
      ensures View() == ReadingLoops.Unsubscribe(old(View()), key, subscriber)
    {
      if key !in loops {
        return;
      }
      var l := loops[key];
      var loop := objects[l];
      var rest := loop.subscribers - {subscriber};
      objects := objects[l := loop.(subscribers := rest)];
      if rest == {} {
        Stop(l);
      }
    }

    /** Takes the subscriber out of every loop in the map, stopping the loops it empties. */
    method RemoveSubscriber(subscriber: Subscriber)
      requires Counted(View())
      modifies this
      ensures View() == ReadingLoops.RemoveSubscriber(old(View()), subscriber)
    {
      ghost var before := View();
      var todo := loops.Keys;
      ghost var done: set<Key> := {};
      hide LeaveSome, LeaveKey, ReadingLoops.RemoveSubscriber;
      LeaveNone(before, subscriber);
      while todo != {}
        invariant done == before.loops.Keys - todo && todo <= before.loops.Keys
        invariant View() == LeaveSome(before, subscriber, done)
      {
        var key :| key in todo;
        LeaveOne(before, subscriber, done, key);
        LeaveLoop(key, subscriber);
        done, todo := done + {key}, todo - {key};
      }
      assert done == before.loops.Keys;
      LeaveAll(before, subscriber);
    }

    method LeaveLoop(key: Key, subscriber: Subscriber)
      requires key in loops && loops[key] < |objects| && objects[loops[key]].key == key
      modifies this
      ensures View() == LeaveKey(old(View()), key, subscriber)
    {
      var l := loops[key];
      var loop := objects[l];
      if subscriber in loop.subscribers {
        var rest := loop.subscribers - {subscriber};
        objects := objects[l := loop.(subscribers := rest)];
        if rest == {} {
          Stop(l);
        }
      } else {
        assert loop.subscribers - {subscriber} == loop.subscribers;
      }
    }

    method RemoveSession(session: nat)
      requires Counted(View())
      modifies this
      ensures View() == ReadingLoops.RemoveSession(old(View()), session)
    {
      ghost var before := View();
      var todo := loops.Keys;
      ghost var gone: set<Key> := {};
      hide StopSome, ReadingLoops.Stop, ReadingLoops.RemoveSession;
      StopNone(before);
      while todo != {}
        invariant todo <= before.loops.Keys && gone <= before.loops.Keys && gone !! todo
        invariant forall k | k in before.loops && k !in todo :: k in gone <==> k.session == session
        invariant View() == StopSome(before, gone)
        decreases |todo|
      {
        var key :| key in todo;
        todo := todo - {key};
        if key.session == session {
          StopOne(before, gone, key);
          Stop(loops[key]);
          gone := gone + {key};
        }
      }
      assert gone == set k | k in before.loops && k.session == session;
      StopAll(before, gone, session);
      removed := removed + {session};
    }

    method Stop(l: nat)
      requires l < |objects|
      modifies this
      ensures View() == ReadingLoops.Stop(old(View()), l)
    {
      timers := timers - {l};
      loops := loops - {objects[l].key};
    }

    method Tick(l: nat)
      requires l < |objects|
      modifies this
      ensures View() == ReadingLoops.Tick(old(View()), l)
    {
      if objects[l].inFlight || objects[l].key !in loops {
        return;
      }
      objects := objects[l := objects[l].(inFlight := true)];
      pending := pending + multiset{l};
    }

    /** The rest of a tick, once its read has settled. */
    method OnRead(l: nat, outcome: Frame)
      requires l < |objects|
      modifies this
      ensures View() == ReadingLoops.ReadEnds(old(View()), l, outcome)
      ensures !objects[l].inFlight
      ensures old(objects[l].key in loops) ==>
                && (outcome.Update? ==> objects[l].lastPayload == Some(outcome.payload) && objects[l].lastError == None)
                && (outcome.Failure? ==> objects[l].lastError == Some(outcome.message))
                && (old(objects)[l].subscribers != {} ==>
                      log == old(log) + [Delivery(old(objects)[l].subscribers, old(objects)[l].key, outcome)])
    {
      pending := pending - multiset{l};
      var loop := objects[l];
      if loop.key in loops {
        match outcome {
          case Update(payload) => loop := loop.(lastPayload := Some(payload), lastError := None);
          case Failure(message) => loop := loop.(lastError := Some(message));
        }
        Send(loop.subscribers, loop.key, outcome);
      }
      objects := objects[l := loop.(inFlight := false)];
    }

    method Send(to: set<Subscriber>, key: Key, frame: Frame)
      modifies this`log
      ensures View() == ReadingLoops.Send(old(View()), to, key, frame)
    {
      if to != {} {
        log := log + [Delivery(to, key, frame)];
      }
    }
  }

  /** The loops of `keys` have been left by the subscriber, those it emptied have stopped. */
  ghost function LeaveSome(s: Scheduler, subscriber: Subscriber, keys: set<Key>): Scheduler
    requires InRange(s)
  {
    var last := set k | k in s.loops && k in keys && s.objects[s.loops[k]].subscribers == {subscriber};
    s.(objects := seq(|s.objects|, l requires 0 <= l < |s.objects| =>
                    if Live(s, l) && s.objects[l].key in keys
                    then s.objects[l].(subscribers := s.objects[l].subscribers - {subscriber})
                    else s.objects[l]),
       loops := s.loops - last,
       timers := s.timers - set k | k in last :: s.loops[k])
  }

  /** One loop is left, and stops if that empties it. */
  ghost function LeaveKey(s: Scheduler, key: Key, subscriber: Subscriber): Scheduler
    requires key in s.loops && s.loops[key] < |s.objects|
  {
    var l := s.loops[key];
    var loop := s.objects[l];
    var left := s.(objects := s.objects[l := loop.(subscribers := loop.subscribers - {subscriber})]);
    if loop.subscribers == {subscriber} then left.(loops := s.loops - {key}, timers := s.timers - {l}) else left
  }

  /** The loops of `keys` have stopped. */
  ghost function StopSome(s: Scheduler, keys: set<Key>): Scheduler
    requires keys <= s.loops.Keys
  {
    s.(loops := s.loops - keys, timers := s.timers - set k | k in keys :: s.loops[k])
  }

  lemma StopNone(s: Scheduler)
    ensures StopSome(s, {}) == s
  {
    assert s.loops - {} == s.loops;
  }

  lemma StopOne(s: Scheduler, keys: set<Key>, key: Key)
    requires Counted(s) && keys <= s.loops.Keys && key in s.loops && key !in keys
    ensures var part := StopSome(s, keys);
            && key in part.loops && part.loops[key] < |part.objects|
            && Stop(part, part.loops[key]) == StopSome(s, keys + {key})
  {
    LastTimers(s, keys, key);
    assert s.loops - keys - {key} == s.loops - (keys + {key});
  }

  lemma StopAll(s: Scheduler, keys: set<Key>, session: nat)
    requires keys == set k | k in s.loops && k.session == session
    ensures var part := StopSome(s, keys);
            part.(removed := part.removed + {session}) == RemoveSession(s, session)
  {
  }

  lemma LeaveNone(s: Scheduler, subscriber: Subscriber)
    requires InRange(s)
    ensures LeaveSome(s, subscriber, {}) == s
  {
    var n := LeaveSome(s, subscriber, {});
    assert n.objects == s.objects && n.loops == s.loops && n.timers == s.timers;
  }

  lemma LeaveAll(s: Scheduler, subscriber: Subscriber)
    requires Counted(s)
    ensures LeaveSome(s, subscriber, s.loops.Keys) == RemoveSubscriber(s, subscriber)
  {
    assert (set k | k in s.loops && k in s.loops.Keys && s.objects[s.loops[k]].subscribers == {subscriber})
        == (set k | k in s.loops && s.objects[s.loops[k]].subscribers == {subscriber});
    assert LeaveSome(s, subscriber, s.loops.Keys).objects == RemoveSubscriber(s, subscriber).objects;
  }

  /** One more key: its loop is still as it was, and leaving it gives the next stage. */
  lemma LeaveOne(s: Scheduler, subscriber: Subscriber, keys: set<Key>, key: Key)
    requires Counted(s) && key in s.loops && key !in keys
    ensures var part := LeaveSome(s, subscriber, keys);
            && key in part.loops && part.loops[key] == s.loops[key] < |part.objects|
            && part.objects[s.loops[key]].key == key
            && LeaveSome(s, subscriber, keys + {key}) == LeaveKey(part, key, subscriber)
            && InRange(LeaveSome(s, subscriber, keys + {key}))
  {
    var part := LeaveSome(s, subscriber, keys);
    var next := LeaveSome(s, subscriber, keys + {key});
    var then' := LeaveKey(part, key, subscriber);
    var l := s.loops[key];
    var last := set k | k in s.loops && k in keys && s.objects[s.loops[k]].subscribers == {subscriber};
    var last' := set k | k in s.loops && k in keys + {key} && s.objects[s.loops[k]].subscribers == {subscriber};
    assert next.objects == then'.objects;
    assert last' == if s.objects[l].subscribers == {subscriber} then last + {key} else last;
    LastTimers(s, last, key);
    assert next.loops == then'.loops;
    assert next.timers == then'.timers;
  }

  lemma LastTimers(s: Scheduler, keys: set<Key>, key: Key)
    requires keys <= s.loops.Keys && key in s.loops
    ensures (set k | k in keys + {key} :: s.loops[k]) == (set k | k in keys :: s.loops[k]) + {s.loops[key]}
  {
  }
}
