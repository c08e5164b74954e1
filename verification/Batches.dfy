/**
 * The observability scheduler as a state machine: device errors and transcript lines collect in a
 * pending batch per session and topic, and a debounce timer flushes the batch to the subscribers.
 */
module Batches {
  import opened Common

  datatype Topic = DeviceErrors | Transcript

  /** What one subscription follows: a topic of a session. */
  datatype Feed = Feed(session: nat, topic: Topic)

  type Entry = int
  type Subscriber = nat

  datatype Loop = Loop(subscribers: set<Subscriber>, armed: bool)

  /**
   * `pending` and `loops` are the scheduler's maps. `emitted` and `sent` record, since the session was
   * last removed, the entries emitted and the entries flushed; `got` and `base` record what each
   * subscription has received and how much had been flushed before it began.
   */
  datatype Scheduler = Scheduler(
    pending: map<Feed, seq<Entry>>,
    loops: map<Feed, Loop>,
    emitted: map<Feed, seq<Entry>>,
    sent: map<Feed, seq<Entry>>,
    got: map<(Subscriber, Feed), seq<Entry>>,
    base: map<(Subscriber, Feed), nat>)

  function Initial(): Scheduler {
    Scheduler(map[], map[], map[], map[], map[], map[])
  }

  function Get<K>(m: map<K, seq<Entry>>, k: K): seq<Entry> {
    if k in m then m[k] else []
  }

  /** Arms the flush timer unless it is armed already or nobody listens. */
  function Schedule(s: Scheduler, f: Feed): Scheduler {
    if f !in s.loops || s.loops[f].subscribers == {} || s.loops[f].armed then s
    else s.(loops := s.loops[f := s.loops[f].(armed := true)])
  }

  function Emit(s: Scheduler, f: Feed, entries: seq<Entry>): Scheduler {
    Schedule(s.(pending := s.pending[f := Get(s.pending, f) + entries],
                emitted := s.emitted[f := Get(s.emitted, f) + entries]), f)
  }

  function Subscribe(s: Scheduler, f: Feed, x: Subscriber): Scheduler {
    var loop := if f in s.loops then s.loops[f] else Loop({}, false);
    var joined := s.(loops := s.loops[f := loop.(subscribers := loop.subscribers + {x})],
                     got := s.got[(x, f) := []],
                     base := s.base[(x, f) := |Get(s.sent, f)|]);
    if Get(s.pending, f) != [] then Schedule(joined, f) else joined
  }

  /** The last one out disarms the timer and takes the loop along; the pending batch stays. */
  function Unsubscribe(s: Scheduler, f: Feed, x: Subscriber): Scheduler {
    if f !in s.loops then s
    else
      var rest := s.loops[f].subscribers - {x};
      if rest == {} then s.(loops := s.loops - {f})
      else s.(loops := s.loops[f := s.loops[f].(subscribers := rest)])
  }

  function RemoveSubscriber(s: Scheduler, x: Subscriber): Scheduler {
    s.(loops := map f | f in s.loops && s.loops[f].subscribers != {x} ::
                  s.loops[f].(subscribers := s.loops[f].subscribers - {x}))
  }

  function FeedsOf(session: nat): set<Feed> {
    {Feed(session, DeviceErrors), Feed(session, Transcript)}
  }

  function RemoveSession(s: Scheduler, session: nat): Scheduler {
    var feeds := FeedsOf(session);
    s.(pending := s.pending - feeds, loops := s.loops - feeds, emitted := s.emitted - feeds, sent := s.sent - feeds)
  }

  /** The timer fires: the whole batch goes to everyone subscribed now. */
  function Fire(s: Scheduler, f: Feed): Scheduler
    requires f in s.loops
  {
    var disarmed := s.(loops := s.loops[f := s.loops[f].(armed := false)]);
    var entries := Get(s.pending, f);
    if entries == [] then disarmed
    else
      var to := s.loops[f].subscribers;
      disarmed.(pending := s.pending - {f},
                sent := s.sent[f := Get(s.sent, f) + entries],
                got := map p | p in s.got.Keys + set x | x in to :: (x, f) ::
                         if p.1 == f && p.0 in to then Get(s.got, p) + entries else s.got[p])
  }

  // ---------------------------------------------------------------------------
  // Runs
  // ---------------------------------------------------------------------------

  datatype Event =
    | Emits(feed: Feed, entries: seq<Entry>)
    | Subscribes(feed: Feed, subscriber: Subscriber)
    | Unsubscribes(feed: Feed, subscriber: Subscriber)
    | SocketGone(subscriber: Subscriber)
    | SessionGone(session: nat)
    | TimerFires(feed: Feed)

  /** The manager emits no empty list, and a timer fires only while armed. */
  predicate Enabled(s: Scheduler, e: Event) {
    match e
    case Emits(_, entries) => entries != []
    case TimerFires(f) => f in s.loops && s.loops[f].armed
    case _ => true
  }

  function Step(s: Scheduler, e: Event): Scheduler
    requires Enabled(s, e)
  {
    match e
    case Emits(f, entries) => Emit(s, f, entries)
    case Subscribes(f, x) => Subscribe(s, f, x)
    case Unsubscribes(f, x) => Unsubscribe(s, f, x)
    case SocketGone(x) => RemoveSubscriber(s, x)
    case SessionGone(session) => RemoveSession(s, session)
    case TimerFires(f) => Fire(s, f)
  }

  // ---------------------------------------------------------------------------
  // Invariant
  // ---------------------------------------------------------------------------

  /** What was flushed and what is pending make up what was emitted, in order. */
  predicate Conserved(s: Scheduler, f: Feed) {
    Get(s.emitted, f) == Get(s.sent, f) + Get(s.pending, f)
  }

  /** The timer runs exactly when someone listens and something waits. */
  predicate ArmedRight(s: Scheduler, f: Feed) {
    (f in s.loops && s.loops[f].armed) <==> (f in s.loops && s.loops[f].subscribers != {} && Get(s.pending, f) != [])
  }

  /** A subscription has received exactly the entries flushed since it began, each once, in order. */
  predicate ServedInFull(s: Scheduler, f: Feed, x: Subscriber)
    requires f in s.loops && x in s.loops[f].subscribers
  {
    && (x, f) in s.base
    && s.base[(x, f)] <= |Get(s.sent, f)|
    && Get(s.got, (x, f)) == Get(s.sent, f)[s.base[(x, f)]..]
  }

  ghost predicate Valid(s: Scheduler) {
    && (forall f :: Conserved(s, f) && ArmedRight(s, f))
    && (forall f | f in s.loops :: s.loops[f].subscribers != {})
    && (forall f, x :: f in s.loops && x in s.loops[f].subscribers ==> ServedInFull(s, f, x))
  }

  lemma DropThenJoin<T>(a: seq<T>, b: seq<T>, k: nat)
    requires k <= |a|
    ensures a[k..] + b == (a + b)[k..]
  {
  }

  /** Two states that agree about what was flushed and what one subscription has received. */
  predicate SameDeliveries(s: Scheduler, n: Scheduler, f: Feed, x: Subscriber) {
    && Get(n.sent, f) == Get(s.sent, f) && Get(n.got, (x, f)) == Get(s.got, (x, f))
    && ((x, f) in s.base ==> (x, f) in n.base && n.base[(x, f)] == s.base[(x, f)])
  }

  lemma StillServed(s: Scheduler, n: Scheduler, f: Feed, x: Subscriber)
    requires f in s.loops && x in s.loops[f].subscribers && ServedInFull(s, f, x)
    requires f in n.loops && x in n.loops[f].subscribers && SameDeliveries(s, n, f, x)
    ensures ServedInFull(n, f, x)
  {
  }

  lemma EmitBooks(s: Scheduler, f: Feed, entries: seq<Entry>, g: Feed)
    requires Conserved(s, g) && ArmedRight(s, g) && entries != []
    requires f in s.loops ==> s.loops[f].subscribers != {}
    ensures Conserved(Emit(s, f, entries), g) && ArmedRight(Emit(s, f, entries), g)
  {
    if g == f {
      var n := Emit(s, f, entries);
      assert Get(n.pending, f) == Get(s.pending, f) + entries != [];
      assert Get(n.emitted, f) == Get(s.emitted, f) + entries;
      assert Get(s.sent, f) + (Get(s.pending, f) + entries) == Get(s.sent, f) + Get(s.pending, f) + entries;
    }
  }

  lemma EmitValid(s: Scheduler, f: Feed, entries: seq<Entry>)
    requires Valid(s) && entries != []
    ensures Valid(Emit(s, f, entries))
  {
    hide Conserved;
    hide ArmedRight;
    hide ServedInFull;
    var n := Emit(s, f, entries);
    forall g ensures Conserved(n, g) && ArmedRight(n, g) {
      assert Conserved(s, g) && ArmedRight(s, g);
      EmitBooks(s, f, entries, g);
    }
    forall g, x | g in n.loops && x in n.loops[g].subscribers ensures ServedInFull(n, g, x) {
      assert ServedInFull(s, g, x) && SameDeliveries(s, n, g, x);
      StillServed(s, n, g, x);
    }
  }

  lemma SubscribeBooks(s: Scheduler, f: Feed, x: Subscriber, g: Feed)
    requires Conserved(s, g) && ArmedRight(s, g)
    ensures Conserved(Subscribe(s, f, x), g) && ArmedRight(Subscribe(s, f, x), g)
  {
    if g == f {
      var n := Subscribe(s, f, x);
      assert f in n.loops && x in n.loops[f].subscribers;
    }
  }

  lemma SubscribeServes(s: Scheduler, f: Feed, x: Subscriber, g: Feed, y: Subscriber)
    requires var n := Subscribe(s, f, x); g in n.loops && y in n.loops[g].subscribers
    requires g in s.loops && y in s.loops[g].subscribers ==> ServedInFull(s, g, y)
    ensures ServedInFull(Subscribe(s, f, x), g, y)
  {
    var n := Subscribe(s, f, x);
    assert n.sent == s.sent && n.got == s.got[(x, f) := []] && n.base == s.base[(x, f) := |Get(s.sent, f)|];
    if g == f && y == x {
      assert Get(n.sent, f)[|Get(n.sent, f)|..] == [];
    }
  }

  lemma SubscribeValid(s: Scheduler, f: Feed, x: Subscriber)
    requires Valid(s)
    ensures Valid(Subscribe(s, f, x))
  {
    hide Conserved;
    hide ArmedRight;
    hide ServedInFull;
    var n := Subscribe(s, f, x);
    forall g ensures Conserved(n, g) && ArmedRight(n, g) {
      assert Conserved(s, g) && ArmedRight(s, g);
      SubscribeBooks(s, f, x, g);
    }
    forall g, y | g in n.loops && y in n.loops[g].subscribers ensures ServedInFull(n, g, y) {
      SubscribeServes(s, f, x, g, y);
    }
  }

  /** Loops that lose subscribers, or go, leave the books as they were. */
  lemma FewerValid(s: Scheduler, n: Scheduler)
    requires Valid(s) && n == s.(loops := n.loops)
    requires forall f | f in n.loops :: f in s.loops && n.loops[f].armed == s.loops[f].armed
    requires forall f | f in n.loops :: {} < n.loops[f].subscribers <= s.loops[f].subscribers
    ensures Valid(n)
  {
    forall g ensures Conserved(n, g) && ArmedRight(n, g) {
      assert Conserved(s, g) && ArmedRight(s, g);
    }
    forall g, y | g in n.loops && y in n.loops[g].subscribers ensures ServedInFull(n, g, y) {
      assert ServedInFull(s, g, y);
    }
  }

  lemma UnsubscribeValid(s: Scheduler, f: Feed, x: Subscriber)
    requires Valid(s)
    ensures Valid(Unsubscribe(s, f, x))
  {
    hide Conserved, ArmedRight, ServedInFull;
    FewerValid(s, Unsubscribe(s, f, x));
  }

  lemma SocketGoneValid(s: Scheduler, x: Subscriber)
    requires Valid(s)
    ensures Valid(RemoveSubscriber(s, x))
  {
    var n := RemoveSubscriber(s, x);
    forall f | f in n.loops ensures n.loops[f].subscribers != {} {
      var y :| y in s.loops[f].subscribers && y != x;
      assert y in n.loops[f].subscribers;
    }
    FewerValid(s, n);
  }

  lemma SessionGoneValid(s: Scheduler, session: nat)
    requires Valid(s)
    ensures Valid(RemoveSession(s, session))
  {
    var n := RemoveSession(s, session);
    forall g ensures Conserved(n, g) && ArmedRight(n, g) {
      assert Conserved(s, g) && ArmedRight(s, g);
    }
    forall g, y | g in n.loops && y in n.loops[g].subscribers ensures ServedInFull(n, g, y) {
      assert ServedInFull(s, g, y);
    }
  }

  lemma FireBooks(s: Scheduler, f: Feed, g: Feed)
    requires f in s.loops && s.loops[f].armed && ArmedRight(s, f) && Conserved(s, g) && ArmedRight(s, g)
    ensures Conserved(Fire(s, f), g) && ArmedRight(Fire(s, f), g)
  {
    if g == f {
      assert Get(s.sent, f) + Get(s.pending, f) + [] == Get(s.sent, f) + Get(s.pending, f);
    }
  }

  lemma FireServes(s: Scheduler, f: Feed, g: Feed, y: Subscriber)
    requires f in s.loops && s.loops[f].armed
    requires g in s.loops && y in s.loops[g].subscribers && ServedInFull(s, g, y)
    ensures ServedInFull(Fire(s, f), g, y)
  {
    var n, entries := Fire(s, f), Get(s.pending, f);
    if g == f && entries != [] {
      assert (y, f) in n.got && n.got[(y, f)] == Get(s.got, (y, f)) + entries;
      DropThenJoin(Get(s.sent, f), entries, s.base[(y, f)]);
    } else {
      assert SameDeliveries(s, n, g, y);
    }
  }

  lemma FireValid(s: Scheduler, f: Feed)
    requires Valid(s) && f in s.loops && s.loops[f].armed
    ensures Valid(Fire(s, f))
  {
    hide Conserved;
    hide ArmedRight;
    hide ServedInFull;
    var n := Fire(s, f);
    assert ArmedRight(s, f);
    forall g ensures Conserved(n, g) && ArmedRight(n, g) {
      assert Conserved(s, g) && ArmedRight(s, g);
      FireBooks(s, f, g);
    }
    forall g, y | g in n.loops && y in n.loops[g].subscribers ensures ServedInFull(n, g, y) {
      FireServes(s, f, g, y);
    }
  }

  lemma StepValid(s: Scheduler, e: Event)
    requires Valid(s) && Enabled(s, e)
    ensures Valid(Step(s, e))
  {
    hide Conserved;
    hide ArmedRight;
    hide ServedInFull;
    match e
    case Emits(f, entries) => EmitValid(s, f, entries);
    case Subscribes(f, x) => SubscribeValid(s, f, x);
    case Unsubscribes(f, x) => UnsubscribeValid(s, f, x);
    case SocketGone(x) => SocketGoneValid(s, x);
    case SessionGone(session) => SessionGoneValid(s, session);
    case TimerFires(f) => FireValid(s, f);
  }

  /** The invariant as one ledger per subscriber: what it has received and what still waits for it. */
  lemma Ledger(s: Scheduler, f: Feed, x: Subscriber)
    requires Valid(s)
    ensures Get(s.emitted, f) == Get(s.sent, f) + Get(s.pending, f)
    ensures (f in s.loops && s.loops[f].armed) <==>
            (f in s.loops && s.loops[f].subscribers != {} && Get(s.pending, f) != [])
    ensures f in s.loops && x in s.loops[f].subscribers ==>
              && (x, f) in s.base && s.base[(x, f)] <= |Get(s.sent, f)|
              && Get(s.got, (x, f)) + Get(s.pending, f) == Get(s.emitted, f)[s.base[(x, f)]..]
  {
    assert Conserved(s, f) && ArmedRight(s, f);
    if f in s.loops && x in s.loops[f].subscribers {
      assert ServedInFull(s, f, x);
      DropThenJoin(Get(s.sent, f), Get(s.pending, f), s.base[(x, f)]);
    }
  }

  // ---------------------------------------------------------------------------
  // Theorems about every run
  // ---------------------------------------------------------------------------

  ghost predicate Legal(trace: Trace<Event>)
    decreases trace, 0
  {
    trace.Then? ==> Legal(trace.before) && Enabled(Run(trace.before), trace.event)
  }

  ghost function Run(trace: Trace<Event>): (s: Scheduler)
    requires Legal(trace)
    ensures Valid(s)
    decreases trace, 1
  {
    match trace
    case Start => Initial()
    case Then(before, event) =>
      StepValid(Run(before), event);
      Step(Run(before), event)
  }

  /**
   * Batch conservation, in every run: between removals of its session, what has been flushed followed by
   * what is pending is exactly what was emitted, a timer is armed exactly when someone listens and
   * something waits, and each subscriber has received one unbroken stretch of the flushed entries.
   */
  lemma BatchConservation(trace: Trace<Event>, f: Feed, x: Subscriber)
    requires Legal(trace)
    ensures var s := Run(trace);
            && Get(s.emitted, f) == Get(s.sent, f) + Get(s.pending, f)
            && ((f in s.loops && s.loops[f].armed) <==>
                (f in s.loops && s.loops[f].subscribers != {} && Get(s.pending, f) != []))
            && (f in s.loops && x in s.loops[f].subscribers ==>
                  && (x, f) in s.base && s.base[(x, f)] <= |Get(s.sent, f)|
                  && Get(s.got, (x, f)) + Get(s.pending, f) == Get(s.emitted, f)[s.base[(x, f)]..])
  {
    Ledger(Run(trace), f, x);
  }

  /** The condition on emissions is needed: an empty list arms the timer of a topic with nothing pending. */
  lemma EmptyEmissionArms(s: Scheduler, f: Feed)
    requires Valid(s) && f in s.loops && Get(s.pending, f) == []
    ensures var n := Emit(s, f, []);
            f in n.loops && n.loops[f].armed && Get(n.pending, f) == []
  {
    assert Get(s.pending, f) + [] == [];
  }
}
