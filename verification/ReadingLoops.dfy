/**
 * The reading scheduler as a state machine: one read loop per session and topic, shared by every
 * subscriber. A stopped loop's object outlives its entry in the map while a read is still under way, so
 * loop objects are named by the order of their creation and kept apart from the keys they served.
 */
module ReadingLoops {
  import opened Common

  datatype Key = Key(session: nat, topic: nat)

  /** A subscriber is one socket. */
  type Subscriber = nat

  datatype Frame = Update(payload: int) | Failure(message: int)

  /** One frame sent to everyone in `to`. */
  datatype Delivery = Delivery(to: set<Subscriber>, key: Key, frame: Frame)

  datatype Loop = Loop(
    key: Key,
    subscribers: set<Subscriber>,
    lastPayload: Option<int>,
    lastError: Option<int>,
    inFlight: bool)

  /**
   * `objects` are the loops ever created, `loops` the scheduler's map, `timers` the interval timers
   * running, `pending` the reads under way. `log`, `since` and `removed` record the deliveries, the length
   * of the log when each subscription began, and the sessions closed so far.
   */
  datatype Scheduler = Scheduler(
    objects: seq<Loop>,
    loops: map<Key, nat>,
    timers: set<nat>,
    pending: multiset<nat>,
    log: seq<Delivery>,
    since: map<(Subscriber, Key), nat>,
    removed: set<nat>)

  function Initial(): Scheduler {
    Scheduler([], map[], {}, multiset{}, [], map[], {})
  }

  predicate InRange(s: Scheduler) {
    && (forall k | k in s.loops :: s.loops[k] < |s.objects|)
    && (forall l | l in s.timers :: l < |s.objects|)
    && (forall l | l in s.pending :: l < |s.objects|)
  }

  function Send(s: Scheduler, to: set<Subscriber>, key: Key, frame: Frame): Scheduler {
    if to == {} then s else s.(log := s.log + [Delivery(to, key, frame)])
  }

  /** `#tick`: start a read unless one is under way or the key has no loop any more. */
  function Tick(s: Scheduler, l: nat): Scheduler
    requires l < |s.objects|
  {
    if s.objects[l].inFlight || s.objects[l].key !in s.loops then s
    else s.(objects := s.objects[l := s.objects[l].(inFlight := true)], pending := s.pending + multiset{l})
  }

  /** The frame a late joiner is sent at once: the cached payload, else the cached error. */
  function Replay(loop: Loop): Option<Frame> {
    if loop.lastPayload.Some? then Some(Update(loop.lastPayload.value))
    else if loop.lastError.Some? then Some(Failure(loop.lastError.value))
    else None
  }

  /** A live loop takes another subscriber. */
  function Join(s: Scheduler, key: Key, subscriber: Subscriber): Scheduler
    requires key in s.loops && s.loops[key] < |s.objects|
  {
    var l := s.loops[key];
    var loop := s.objects[l];
    var joined := s.(objects := s.objects[l := loop.(subscribers := loop.subscribers + {subscriber})],
                     since := s.since[(subscriber, key) := |s.log|]);
    match Replay(loop)
    case None => joined
    case Some(frame) => Send(joined, {subscriber}, key, frame)
  }

  /** The first subscriber of a key creates its loop, starts its timer and kicks off a read. */
  function Open(s: Scheduler, key: Key, subscriber: Subscriber): Scheduler {
    var l := |s.objects|;
    var created := s.(objects := s.objects + [Loop(key, {subscriber}, None, None, false)],
                     loops := s.loops[key := l],
                     timers := s.timers + {l},
                     since := s.since[(subscriber, key) := |s.log|]);
    Tick(created, l)
  }

  function Subscribe(s: Scheduler, key: Key, subscriber: Subscriber): Scheduler
    requires InRange(s)
  {
    if key in s.loops then Join(s, key, subscriber) else Open(s, key, subscriber)
  }

  /** `#stop`: clear the timer and forget the key. The subscriber set is left as it is. */
  function Stop(s: Scheduler, l: nat): Scheduler
    requires l < |s.objects|
  {
    s.(loops := s.loops - {s.objects[l].key}, timers := s.timers - {l})
  }

  function Unsubscribe(s: Scheduler, key: Key, subscriber: Subscriber): Scheduler
    requires InRange(s)
  {
    if key !in s.loops then s
    else
      var l := s.loops[key];
      var rest := s.objects[l].subscribers - {subscriber};
      var left := s.(objects := s.objects[l := s.objects[l].(subscribers := rest)]);
      if rest == {} then Stop(left, l) else left
  }

  predicate Live(s: Scheduler, l: nat) {
    l < |s.objects| && s.objects[l].key in s.loops && s.loops[s.objects[l].key] == l
  }

  /** A socket went away: it leaves every live loop, and loops it was the last subscriber of stop. */
  function RemoveSubscriber(s: Scheduler, subscriber: Subscriber): Scheduler
    requires InRange(s)
  {
    var last := set k | k in s.loops && s.objects[s.loops[k]].subscribers == {subscriber};
    s.(objects := seq(|s.objects|, l requires 0 <= l < |s.objects| =>
                    if Live(s, l) then s.objects[l].(subscribers := s.objects[l].subscribers - {subscriber})
                    else s.objects[l]),
       loops := s.loops - last,
       timers := s.timers - set k | k in last :: s.loops[k])
  }

  /** A session was closed: its loops stop, whoever was subscribed. */
  function RemoveSession(s: Scheduler, session: nat): Scheduler {
    var gone := set k | k in s.loops && k.session == session;
    s.(loops := s.loops - gone,
       timers := s.timers - set k | k in gone :: s.loops[k],
       removed := s.removed + {session})
  }

  /** A read ends. The guard asks only whether the key has a loop, not whether it is this one. */
  function ReadEnds(s: Scheduler, l: nat, outcome: Frame): Scheduler
    requires l < |s.objects|
  {
    var loop := s.objects[l].(inFlight := false);
    var s1 := s.(pending := s.pending - multiset{l});
    if loop.key !in s.loops then s1.(objects := s.objects[l := loop])
    else
      var cached := match outcome
        case Update(payload) => loop.(lastPayload := Some(payload), lastError := None)
        case Failure(message) => loop.(lastError := Some(message));
      Send(s1.(objects := s.objects[l := cached]), loop.subscribers, loop.key, outcome)
  }

  // ---------------------------------------------------------------------------
  // Runs
  // ---------------------------------------------------------------------------

  datatype Event =
    | DoSubscribe(key: Key, subscriber: Subscriber)
    | DoUnsubscribe(key: Key, subscriber: Subscriber)
    | SocketGone(subscriber: Subscriber)
    | SessionGone(session: nat)
    | TimerFires(loop: nat)
    | ReadSettles(loop: nat, outcome: Frame)

  predicate Enabled(s: Scheduler, e: Event) {
    match e
    case TimerFires(l) => l in s.timers
    case ReadSettles(l, _) => l in s.pending
    case _ => true
  }

  function Step(s: Scheduler, e: Event): Scheduler
    requires InRange(s) && Enabled(s, e)
  {
    match e
    case DoSubscribe(key, subscriber) => Subscribe(s, key, subscriber)
    case DoUnsubscribe(key, subscriber) => Unsubscribe(s, key, subscriber)
    case SocketGone(subscriber) => RemoveSubscriber(s, subscriber)
    case SessionGone(session) => RemoveSession(s, session)
    case TimerFires(l) => Tick(s, l)
    case ReadSettles(l, outcome) => ReadEnds(s, l, outcome)
  }

  // ---------------------------------------------------------------------------
  // Invariant
  // ---------------------------------------------------------------------------

  /** Loops in the map, running timers and keys with a subscriber correspond one to one. */
  ghost predicate Counted(s: Scheduler) {
    && InRange(s)
    && (forall k | k in s.loops :: s.objects[s.loops[k]].key == k && s.objects[s.loops[k]].subscribers != {})
    && (forall l: nat :: l in s.timers <==> Live(s, l))
  }

  /** A loop has at most one read under way, and knows it. */
  ghost predicate OneRead(s: Scheduler) {
    && (forall l | l in s.pending :: l < |s.objects|)
    && (forall l: nat :: l < |s.objects| ==> s.pending[l] == if s.objects[l].inFlight then 1 else 0)
  }

  /** A stopped loop has no subscribers left, unless its session was removed. */
  ghost predicate Quiescent(s: Scheduler) {
    forall l: nat :: l < |s.objects| && !Live(s, l) ==>
      s.objects[l].subscribers == {} || s.objects[l].key.session in s.removed
  }

  /** The last update `subscriber` was sent on `key` since position `from` of the log. */
  function LastUpdate(log: seq<Delivery>, subscriber: Subscriber, key: Key, from: nat): Option<int> {
    if |log| <= from then None
    else
      var d := log[|log| - 1];
      if subscriber in d.to && d.key == key && d.frame.Update? then Some(d.frame.payload)
      else LastUpdate(log[..|log| - 1], subscriber, key, from)
  }

  /** `subscriber` is subscribed to the live loop of `key`. */
  predicate Subscribed(s: Scheduler, key: Key, subscriber: Subscriber) {
    key in s.loops && s.loops[key] < |s.objects| && subscriber in s.objects[s.loops[key]].subscribers
  }

  ghost predicate UpToDate(s: Scheduler, key: Key, subscriber: Subscriber)
    requires Subscribed(s, key, subscriber)
  {
    && (subscriber, key) in s.since
    && s.since[(subscriber, key)] <= |s.log|
    && LastUpdate(s.log, subscriber, key, s.since[(subscriber, key)]) == s.objects[s.loops[key]].lastPayload
  }

  /**
   * Everyone subscribed to a loop has seen, as their latest update, the payload the loop has cached, as
   * long as the session has not been removed.
   */
  ghost predicate Agreed(s: Scheduler) {
    forall k: Key, x :: k.session !in s.removed && Subscribed(s, k, x) ==> UpToDate(s, k, x)
  }

  ghost predicate Shaped(s: Scheduler) {
    Counted(s) && OneRead(s) && Quiescent(s)
  }

  ghost predicate Valid(s: Scheduler) {
    Shaped(s) && Agreed(s)
  }

  lemma LastUpdateSkips(log: seq<Delivery>, d: Delivery, subscriber: Subscriber, key: Key, from: nat)
    requires from <= |log|
    ensures LastUpdate(log + [d], subscriber, key, from) ==
            if subscriber in d.to && d.key == key && d.frame.Update? then Some(d.frame.payload)
            else LastUpdate(log, subscriber, key, from)
  {
    assert (log + [d])[..|log|] == log;
  }

  /** Sending a frame changes only what its addressees have last seen on its key. */
  lemma SendSkips(s: Scheduler, to: set<Subscriber>, key: Key, frame: Frame, x: Subscriber, k: Key, from: nat)
    requires from <= |s.log|
    ensures LastUpdate(Send(s, to, key, frame).log, x, k, from) ==
            if x in to && key == k && frame.Update? then Some(frame.payload) else LastUpdate(s.log, x, k, from)
  {
    LastUpdateSkips(s.log, Delivery(to, key, frame), x, k, from);
  }

  lemma JoinShaped(s: Scheduler, key: Key, subscriber: Subscriber)
    requires Shaped(s) && key in s.loops
    ensures Shaped(Join(s, key, subscriber))
  {
    var n := Join(s, key, subscriber);
    assert forall k: nat :: k < |s.objects| ==> (Live(n, k) <==> Live(s, k));
  }

  lemma JoinAgreed(s: Scheduler, key: Key, subscriber: Subscriber, k: Key, x: Subscriber)
    requires Shaped(s) && Agreed(s) && key in s.loops
    requires k.session !in s.removed && Subscribed(Join(s, key, subscriber), k, x)
    ensures UpToDate(Join(s, key, subscriber), k, x)
  {
    var n := Join(s, key, subscriber);
    var l := s.loops[key];
    var frame := Replay(s.objects[l]);
    if k == key && x == subscriber {
      if frame.Some? {
        SendSkips(s, {subscriber}, key, frame.value, x, k, |s.log|);
      }
      assert LastUpdate(s.log, x, k, |s.log|) == None;
    } else {
      assert Subscribed(s, k, x) && UpToDate(s, k, x);
      if frame.Some? {
        SendSkips(s, {subscriber}, key, frame.value, x, k, s.since[(x, k)]);
      }
    }
  }

  lemma OpenValid(s: Scheduler, key: Key, subscriber: Subscriber)
    requires Valid(s) && key !in s.loops
    ensures Valid(Open(s, key, subscriber))
  {
    var n := Open(s, key, subscriber);
    assert forall k: nat :: k < |s.objects| ==> (Live(n, k) <==> Live(s, k));
    assert s.pending[|s.objects|] == 0;
    forall k: Key, x | k.session !in n.removed && Subscribed(n, k, x) ensures UpToDate(n, k, x) {
      assert k != key ==> Subscribed(s, k, x) && UpToDate(s, k, x);
    }
  }

  lemma SubscribeValid(s: Scheduler, key: Key, subscriber: Subscriber)
    requires Valid(s)
    ensures Valid(Subscribe(s, key, subscriber))
  {
    if key in s.loops {
      JoinShaped(s, key, subscriber);
      forall k: Key, x | k.session !in s.removed && Subscribed(Join(s, key, subscriber), k, x)
        ensures UpToDate(Join(s, key, subscriber), k, x)
      {
        JoinAgreed(s, key, subscriber, k, x);
      }
    } else {
      OpenValid(s, key, subscriber);
    }
  }

  /** Who has seen what is untouched by steps that only take subscribers away. */
  lemma FewerAgreed(s: Scheduler, n: Scheduler)
    requires Counted(s) && Agreed(s) && n.log == s.log && n.since == s.since && s.removed <= n.removed
    requires forall k: Key, x :: k.session !in n.removed && Subscribed(n, k, x) ==>
               && Subscribed(s, k, x)
               && n.objects[n.loops[k]].lastPayload == s.objects[s.loops[k]].lastPayload
    ensures Agreed(n)
  {
    forall k: Key, x | k.session !in n.removed && Subscribed(n, k, x) ensures UpToDate(n, k, x) {
      assert UpToDate(s, k, x);
    }
  }

  lemma UnsubscribeValid(s: Scheduler, key: Key, subscriber: Subscriber)
    requires Valid(s)
    ensures Valid(Unsubscribe(s, key, subscriber))
    ensures !Subscribed(Unsubscribe(s, key, subscriber), key, subscriber)
  {
    if key in s.loops {
      var n := Unsubscribe(s, key, subscriber);
      UnsubscribeShaped(s, key, subscriber);
      FewerAgreed(s, n);
    }
  }

  lemma UnsubscribeShaped(s: Scheduler, key: Key, subscriber: Subscriber)
    requires Shaped(s) && key in s.loops
    ensures Shaped(Unsubscribe(s, key, subscriber))
  {
    var n := Unsubscribe(s, key, subscriber);
    assert forall k: nat :: k < |s.objects| && k != s.loops[key] ==> (Live(n, k) <==> Live(s, k));
    assert Live(n, s.loops[key]) <==> key in n.loops;
  }

  lemma SocketGoneValid(s: Scheduler, subscriber: Subscriber)
    requires Valid(s)
    ensures Valid(RemoveSubscriber(s, subscriber))
    ensures forall k :: !Subscribed(RemoveSubscriber(s, subscriber), k, subscriber)
  {
    var n := RemoveSubscriber(s, subscriber);
    SocketGoneShaped(s, subscriber);
    forall k | k in n.loops ensures Live(s, s.loops[k]) {
    }
    FewerAgreed(s, n);
  }

  lemma SocketGoneShaped(s: Scheduler, subscriber: Subscriber)
    requires Shaped(s)
    ensures Shaped(RemoveSubscriber(s, subscriber))
  {
    var n := RemoveSubscriber(s, subscriber);
    var last := set k | k in s.loops && s.objects[s.loops[k]].subscribers == {subscriber};
    forall l: nat | l < |s.objects|
      ensures Live(n, l) <==> Live(s, l) && s.objects[l].key !in last
    {
    }
    StoppedTimers(s, last);
    forall k | k in n.loops ensures n.objects[n.loops[k]].key == k && n.objects[n.loops[k]].subscribers != {} {
      assert Live(s, s.loops[k]);
      var x :| x in s.objects[s.loops[k]].subscribers && x != subscriber;
      assert x in n.objects[n.loops[k]].subscribers;
    }
  }

  /** Stopping the loops of some keys clears exactly their timers. */
  lemma StoppedTimers(s: Scheduler, keys: set<Key>)
    requires Counted(s)
    requires keys <= s.loops.Keys
    ensures forall l: nat :: l in s.timers - (set k | k in keys :: s.loops[k]) <==>
                             Live(s, l) && s.objects[l].key !in keys
  {
    forall l: nat | l in s.timers ensures l in (set k | k in keys :: s.loops[k]) <==> s.objects[l].key in keys {
      if s.objects[l].key in keys {
        assert s.loops[s.objects[l].key] == l;
      }
    }
  }

  lemma SessionGoneValid(s: Scheduler, session: nat)
    requires Valid(s)
    ensures Valid(RemoveSession(s, session))
    ensures forall k: Key, x :: k.session == session ==> !Subscribed(RemoveSession(s, session), k, x)
  {
    var n := RemoveSession(s, session);
    var gone := set k | k in s.loops && k.session == session;
    forall l: nat | l < |s.objects|
      ensures Live(n, l) <==> Live(s, l) && s.objects[l].key !in gone
    {
    }
    StoppedTimers(s, gone);
    FewerAgreed(s, n);
  }

  /** Steps that change no loop's key or listeners, nor the map and the timers, leave the counts as they were. */
  lemma SameListeners(s: Scheduler, n: Scheduler)
    requires Counted(s) && Quiescent(s)
    requires n.loops == s.loops && n.timers == s.timers && n.removed == s.removed
    requires |n.objects| == |s.objects| && forall l | l in n.pending :: l < |s.objects|
    requires forall k: nat | k < |s.objects| ::
               n.objects[k].key == s.objects[k].key && n.objects[k].subscribers == s.objects[k].subscribers
    ensures Counted(n) && Quiescent(n)
  {
    assert forall k: nat :: Live(n, k) <==> Live(s, k);
  }

  lemma TickOneRead(s: Scheduler, l: nat)
    requires OneRead(s) && l < |s.objects|
    ensures OneRead(Tick(s, l))
  {
  }

  lemma TickShaped(s: Scheduler, l: nat)
    requires Shaped(s) && l < |s.objects|
    ensures Shaped(Tick(s, l))
  {
    TickOneRead(s, l);
    hide Live;
    SameListeners(s, Tick(s, l));
  }

  lemma TickValid(s: Scheduler, l: nat)
    requires Valid(s) && l < |s.objects|
    ensures Valid(Tick(s, l))
  {
    hide OneRead, Quiescent, UpToDate;
    TickShaped(s, l);
    FewerAgreed(s, Tick(s, l));
  }

  /** A loop whose read is over differs from before in what it remembers, not in who listens. */
  predicate ReadOver(s: Scheduler, n: Scheduler, l: nat) {
    && n.loops == s.loops && n.timers == s.timers && n.removed == s.removed
    && l < |s.objects| == |n.objects| && n.pending == s.pending - multiset{l}
    && (forall k: nat | k < |s.objects| && k != l :: n.objects[k] == s.objects[k])
    && n.objects[l].key == s.objects[l].key && n.objects[l].subscribers == s.objects[l].subscribers
    && !n.objects[l].inFlight
  }

  lemma ReadOverOneRead(s: Scheduler, n: Scheduler, l: nat)
    requires OneRead(s) && l in s.pending && ReadOver(s, n, l)
    ensures OneRead(n)
  {
  }

  lemma ReadOverShaped(s: Scheduler, n: Scheduler, l: nat)
    requires Shaped(s) && l in s.pending && ReadOver(s, n, l)
    ensures Shaped(n)
  {
    ReadOverOneRead(s, n, l);
    hide Live;
    SameListeners(s, n);
  }

  lemma ReadEndsShaped(s: Scheduler, l: nat, outcome: Frame)
    requires Shaped(s) && l in s.pending
    ensures Shaped(ReadEnds(s, l, outcome))
  {
    hide Quiescent;
    hide OneRead;
    ReadOverShaped(s, ReadEnds(s, l, outcome), l);
  }

  lemma ReadEndsAgreed(s: Scheduler, l: nat, outcome: Frame, k: Key, x: Subscriber)
    requires Valid(s) && l in s.pending
    requires k.session !in s.removed && Subscribed(ReadEnds(s, l, outcome), k, x)
    ensures UpToDate(ReadEnds(s, l, outcome), k, x)
  {
    var key := s.objects[l].key;
    assert Subscribed(s, k, x) && UpToDate(s, k, x);
    if key in s.loops {
      SendSkips(s, s.objects[l].subscribers, key, outcome, x, k, s.since[(x, k)]);
      assert !Live(s, l) && key == k ==> s.objects[l].subscribers == {};
    }
  }

  lemma ReadEndsValid(s: Scheduler, l: nat, outcome: Frame)
    requires Valid(s) && l in s.pending
    ensures Valid(ReadEnds(s, l, outcome))
  {
    ReadEndsShaped(s, l, outcome);
    forall k: Key, x | k.session !in s.removed && Subscribed(ReadEnds(s, l, outcome), k, x)
      ensures UpToDate(ReadEnds(s, l, outcome), k, x)
    {
      ReadEndsAgreed(s, l, outcome, k, x);
    }
  }

  lemma StepValid(s: Scheduler, e: Event)
    requires Valid(s) && Enabled(s, e)
    ensures Valid(Step(s, e))
  {
    match e
    case DoSubscribe(key, subscriber) => SubscribeValid(s, key, subscriber);
    case DoUnsubscribe(key, subscriber) => UnsubscribeValid(s, key, subscriber);
    case SocketGone(subscriber) => SocketGoneValid(s, subscriber);
    case SessionGone(session) => SessionGoneValid(s, session);
    case TimerFires(l) => TickValid(s, l);
    case ReadSettles(l, outcome) => ReadEndsValid(s, l, outcome);
  }

  // ---------------------------------------------------------------------------
  // Theorems about every run
  // ---------------------------------------------------------------------------

  ghost predicate Legal(trace: Trace<Event>)
    decreases trace, 0
  {
    trace.Then? ==> Legal(trace.before) && Enabled(Run(trace.before), trace.event)
  }

  ghost function Run(trace: Trace<Event>): (s: Scheduler)
    requires Legal(trace)
    ensures Valid(s)
    decreases trace, 1
  {
    match trace
    case Start => Initial()
    case Then(before, event) =>
      StepValid(Run(before), event);
      Step(Run(before), event)
  }

  /**
   * Loop reference counting, in every run: loops in the map, keys with a subscriber and running timers
   * correspond one to one, and no loop has two reads under way.
   */
  lemma LoopReferenceCounting(trace: Trace<Event>)
    requires Legal(trace)
    ensures var s := Run(trace);
            && (forall k | k in s.loops :: s.loops[k] < |s.objects| && s.objects[s.loops[k]].key == k
                                           && s.objects[s.loops[k]].subscribers != {} && s.loops[k] in s.timers)
            && (forall l: nat | l in s.timers ::
                  l < |s.objects| && s.objects[l].key in s.loops && s.loops[s.objects[l].key] == l)
            && (forall l: nat :: s.pending[l] <= 1)
  {
    var s := Run(trace);
    assert Counted(s) && OneRead(s);
    forall k | k in s.loops ensures s.loops[k] in s.timers {
      assert Live(s, s.loops[k]);
    }
    forall l: nat ensures s.pending[l] <= 1 {
      if l >= |s.objects| {
        assert l !in s.pending;
      }
    }
  }

  /**
   * Reading cache agreement, in every run: on a session that has not been removed, the latest update a
   * subscriber was sent since it subscribed is the payload the loop has cached; there is one exactly if
   * the other exists.
   */
  lemma ReadingCacheAgreement(trace: Trace<Event>, k: Key, x: Subscriber)
    requires Legal(trace)
    ensures var s := Run(trace);
            k.session !in s.removed && Subscribed(s, k, x) ==>
              && (x, k) in s.since && s.since[(x, k)] <= |s.log|
              && LastUpdate(s.log, x, k, s.since[(x, k)]) == s.objects[s.loops[k]].lastPayload
  {
    var s := Run(trace);
    if k.session !in s.removed && Subscribed(s, k, x) {
      assert UpToDate(s, k, x);
    }
  }

  /** Every frame this step sends goes only to sockets subscribed to its key by then. */
  ghost predicate NoneAstray(s: Scheduler, n: Scheduler) {
    forall i, x :: |s.log| <= i < |n.log| && x in n.log[i].to ==> Subscribed(n, n.log[i].key, x)
  }

  /** A read is back for a loop that is gone, another loop serves its key, and not all its listeners are there. */
  predicate ReachesStrangers(s: Scheduler, l: nat)
    requires InRange(s) && l < |s.objects|
  {
    var loop := s.objects[l];
    && !Live(s, l) && loop.key in s.loops
    && !(loop.subscribers <= s.objects[s.loops[loop.key]].subscribers)
  }

  /** A frame goes to a socket that is not subscribed exactly when a read comes back for such a loop. */
  lemma WhenFramesStray(s: Scheduler, e: Event)
    requires Valid(s) && Enabled(s, e)
    ensures NoneAstray(s, Step(s, e)) <==> !(e.ReadSettles? && ReachesStrangers(s, e.loop))
  {
    hide OneRead, Quiescent, Agreed;
    match e
    case ReadSettles(l, outcome) => ReadFrames(s, l, outcome);
    case DoSubscribe(key, subscriber) => ReplayFrames(s, key, subscriber);
    case _ =>
  }

  lemma ReplayFrames(s: Scheduler, key: Key, subscriber: Subscriber)
    requires Counted(s)
    ensures NoneAstray(s, Subscribe(s, key, subscriber))
  {
    assert Subscribed(Subscribe(s, key, subscriber), key, subscriber);
  }

  lemma ReadFrames(s: Scheduler, l: nat, outcome: Frame)
    requires Valid(s) && l in s.pending
    ensures NoneAstray(s, ReadEnds(s, l, outcome)) <==> !ReachesStrangers(s, l)
  {
    hide OneRead, Quiescent, Agreed;
    var n := ReadEnds(s, l, outcome);
    var loop := s.objects[l];
    if loop.key in s.loops && loop.subscribers != {} {
      var d := n.log[|s.log|];
      assert d.to == loop.subscribers && d.key == loop.key;
      assert n.objects[n.loops[d.key]].subscribers == s.objects[s.loops[d.key]].subscribers;
      if ReachesStrangers(s, l) {
        var x :| x in loop.subscribers && x !in s.objects[s.loops[loop.key]].subscribers;
        assert x in n.log[|s.log|].to && !Subscribed(n, d.key, x);
      }
    }
  }

  /** On sessions that have not been removed that never happens. */
  lemma NoStrayFrames(s: Scheduler, l: nat)
    requires Valid(s) && l < |s.objects| && s.objects[l].key.session !in s.removed
    ensures !ReachesStrangers(s, l)
  {
  }

  /** A run in which no session is subscribed to once it has been removed. */
  ghost predicate NeverRevives(trace: Trace<Event>)
    requires Legal(trace)
  {
    trace.Then? ==>
      && NeverRevives(trace.before)
      && (trace.event.DoSubscribe? ==> trace.event.key.session !in Run(trace.before).removed)
  }

  lemma {:induction false} NoDeadLoops(trace: Trace<Event>)
    requires Legal(trace) && NeverRevives(trace)
    ensures forall k | k in Run(trace).loops :: k.session !in Run(trace).removed
  {
    match trace
    case Start =>
    case Then(before, event) =>
      NoDeadLoops(before);
      RemovedStayDead(Run(before), event);
  }

  /** In such a run every frame goes only to sockets subscribed to its key at that moment. */
  lemma NoFramesAstray(trace: Trace<Event>, e: Event)
    requires Legal(trace) && NeverRevives(trace) && Enabled(Run(trace), e)
    ensures NoneAstray(Run(trace), Step(Run(trace), e))
  {
    var s := Run(trace);
    NoDeadLoops(trace);
    WhenFramesStray(s, e);
    if e.ReadSettles? && s.objects[e.loop].key in s.loops {
      NoStrayFrames(s, e.loop);
    }
  }

  /** The first subscriber of a key starts a read at once, and a tick leaves its loop with one read under way. */
  lemma ReadsKeepComing(s: Scheduler, e: Event)
    requires Valid(s) && Enabled(s, e)
    ensures e.DoSubscribe? && e.key !in s.loops ==>
              e.key in Step(s, e).loops && Step(s, e).pending[Step(s, e).loops[e.key]] == 1
    ensures e.TimerFires? ==> Step(s, e).pending[e.loop] == 1
  {
    match e
    case DoSubscribe(key, subscriber) => assert s.pending[|s.objects|] == 0;
    case TimerFires(l) => assert Live(s, l);
    case _ =>
  }

  /**
   * A read that outlives its loop moves no live loop's cache, even when another loop serves the key by then,
   * and it sends nothing if and only if the key has no loop or its own loop has no listeners left.
   */
  lemma OutlivedReadIsSilent(s: Scheduler, l: nat, outcome: Frame)
    requires Valid(s) && l in s.pending && !Live(s, l)
    ensures var n := ReadEnds(s, l, outcome);
            && (n.log == s.log <==> s.objects[l].key !in s.loops || s.objects[l].subscribers == {})
            && n.loops == s.loops && n.timers == s.timers
            && forall k :: k in s.loops ==> n.objects[s.loops[k]] == s.objects[s.loops[k]]
  {
    var n := ReadEnds(s, l, outcome);
    assert |n.log| == |s.log| ==> n.log == s.log;
  }

  /** The map comes to hold a loop of a removed session exactly when such a session is subscribed to again. */
  lemma RemovedStayDead(s: Scheduler, e: Event)
    requires Valid(s) && Enabled(s, e) && (forall k | k in s.loops :: k.session !in s.removed)
    ensures var n := Step(s, e);
            (forall k | k in n.loops :: k.session !in n.removed) <==> (e.DoSubscribe? ==> e.key.session !in s.removed)
  {
    if e.DoSubscribe? {
      assert e.key in Step(s, e).loops;
    }
  }

  /**
   * The condition on removed sessions is needed. When one is subscribed to again, a read that was under
   * way when it was removed sends its result to the socket that had unsubscribed since.
   */
  lemma ResubscribingRemovedSession(key: Key, early: Subscriber, late: Subscriber, payload: int)
    requires early != late
    ensures var s1 := Subscribe(Initial(), key, early);
            && InRange(s1) && 0 in s1.pending
            && var s2 := RemoveSession(s1, key.session);
            && InRange(s2)
            && var s3 := Unsubscribe(s2, key, early);
            && InRange(s3)
            && var s4 := Subscribe(s3, key, late);
            && InRange(s4) && 0 in s4.pending
            && var s5 := ReadEnds(s4, 0, Update(payload));
            && s5.log == [Delivery({early}, key, Update(payload))]
            && !Subscribed(s5, key, early)
  {
    var s1 := Subscribe(Initial(), key, early);
    assert s1.loops == map[key := 0] && s1.pending == multiset{0};
    var s2 := RemoveSession(s1, key.session);
    assert s2.loops == map[];
    var s3 := Unsubscribe(s2, key, early);
    assert s3 == s2;
    var s4 := Subscribe(s3, key, late);
    assert s4.loops == map[key := 1] && s4.objects[0].subscribers == {early};
  }

  lemma SubscribeWho(s: Scheduler, key: Key, subscriber: Subscriber, k: Key, x: Subscriber)
    requires Counted(s)
    ensures Subscribed(Subscribe(s, key, subscriber), k, x) <==>
            Subscribed(s, k, x) || (k == key && x == subscriber)
  {
  }

  lemma UnsubscribeWho(s: Scheduler, key: Key, subscriber: Subscriber, k: Key, x: Subscriber)
    requires Counted(s)
    ensures Subscribed(Unsubscribe(s, key, subscriber), k, x) <==>
            Subscribed(s, k, x) && !(k == key && x == subscriber)
  {
    if key in s.loops {
      var rest := s.objects[s.loops[key]].subscribers - {subscriber};
      assert x in rest <==> x in s.objects[s.loops[key]].subscribers && x != subscriber;
      assert k in s.loops && k != key ==> s.loops[k] != s.loops[key];
    }
  }

  lemma SocketGoneWho(s: Scheduler, subscriber: Subscriber, k: Key, x: Subscriber)
    requires Valid(s)
    ensures Subscribed(RemoveSubscriber(s, subscriber), k, x) <==> Subscribed(s, k, x) && x != subscriber
  {
    SocketGoneValid(s, subscriber);
    if Subscribed(s, k, x) && x != subscriber {
      assert Live(s, s.loops[k]);
    }
  }

  /** Who is subscribed to what after each step, in terms of who was before. */
  lemma WhoIsSubscribed(s: Scheduler, e: Event, k: Key, x: Subscriber)
    requires Valid(s) && Enabled(s, e)
    ensures Subscribed(Step(s, e), k, x) <==>
            match e
            case DoSubscribe(key, subscriber) => Subscribed(s, k, x) || (k == key && x == subscriber)
            case DoUnsubscribe(key, subscriber) => Subscribed(s, k, x) && !(k == key && x == subscriber)
            case SocketGone(subscriber) => Subscribed(s, k, x) && x != subscriber
            case SessionGone(session) => Subscribed(s, k, x) && k.session != session
            case TimerFires(_) => Subscribed(s, k, x)
            case ReadSettles(_, _) => Subscribed(s, k, x)
  {
    match e
    case SocketGone(subscriber) => SocketGoneWho(s, subscriber, k, x);
    case DoUnsubscribe(key, subscriber) => UnsubscribeWho(s, key, subscriber, k, x);
    case DoSubscribe(key, subscriber) => SubscribeWho(s, key, subscriber, k, x);
    case SessionGone(session) =>
    case TimerFires(_) =>
    case ReadSettles(_, _) =>
  }
}
