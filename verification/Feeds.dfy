/** What the observability feeds carry over whole runs: who follows a feed, and what was emitted on it. */
module Feeds {
  import opened Common
  import opened Batches

  predicate Follows(s: Scheduler, f: Feed, x: Subscriber) {
    f in s.loops && x in s.loops[f].subscribers
  }

  /** One step makes or ends one subscription, or ends those of a socket or a session; all others stay. */
  lemma WhoFollows(s: Scheduler, e: Event, f: Feed, x: Subscriber)
    requires Valid(s) && Enabled(s, e)
    ensures Follows(Step(s, e), f, x) <==>
            match e
            case Emits(_, _) => Follows(s, f, x)
            case Subscribes(g, y) => Follows(s, f, x) || (f == g && x == y)
            case Unsubscribes(g, y) => Follows(s, f, x) && !(f == g && x == y)
            case SocketGone(y) => Follows(s, f, x) && x != y
            case SessionGone(session) => Follows(s, f, x) && f.session != session
            case TimerFires(_) => Follows(s, f, x)
  {
    hide Valid, Get;
    match e
    case Unsubscribes(g, y) => WhoLeaves(s, g, y, f, x);
    case SessionGone(session) => FeedsAre(session, f);
    case SocketGone(y) => WhoStays(s, y, f, x);
    case _ => WhoJoins(s, e, f, x);
  }

  lemma WhoJoins(s: Scheduler, e: Event, f: Feed, x: Subscriber)
    requires Enabled(s, e) && (e.Emits? || e.Subscribes? || e.TimerFires?)
    ensures Follows(Step(s, e), f, x) <==> Follows(s, f, x) || (e.Subscribes? && e.feed == f && e.subscriber == x)
  {
  }

  lemma WhoLeaves(s: Scheduler, g: Feed, y: Subscriber, f: Feed, x: Subscriber)
    ensures Follows(Unsubscribe(s, g, y), f, x) <==> Follows(s, f, x) && !(f == g && x == y)
  {
    if g in s.loops {
      var rest := s.loops[g].subscribers - {y};
      assert x in rest <==> x in s.loops[g].subscribers && x != y;
    }
  }

  lemma WhoStays(s: Scheduler, y: Subscriber, f: Feed, x: Subscriber)
    ensures Follows(RemoveSubscriber(s, y), f, x) <==> Follows(s, f, x) && x != y
  {
    if Follows(s, f, x) && x != y {
      assert s.loops[f].subscribers != {y};
    }
  }

  lemma FeedsAre(session: nat, f: Feed)
    ensures f in FeedsOf(session) <==> f.session == session
  {
    match f.topic
    case DeviceErrors => assert f == Feed(f.session, DeviceErrors);
    case Transcript => assert f == Feed(f.session, Transcript);
  }

  /** A session's removal forgets all that waits on either of its topics, and nothing of other sessions. */
  lemma RemovalForgets(s: Scheduler, session: nat, f: Feed)
    ensures var n := Step(s, SessionGone(session));
            if f.session == session then f !in n.loops && Get(n.pending, f) == []
            else
              && Get(n.pending, f) == Get(s.pending, f)
              && (f in n.loops <==> f in s.loops) && (f in s.loops ==> n.loops[f] == s.loops[f])
  {
    FeedsAre(session, f);
  }

  /** Everything emitted on a feed in the run since its session was last removed. */
  ghost function EmittedOn(trace: Trace<Event>, f: Feed): seq<Entry> {
    match trace
    case Start => []
    case Then(before, e) =>
      if e.SessionGone? && e.session == f.session then []
      else if e.Emits? && e.feed == f then EmittedOn(before, f) + e.entries
      else EmittedOn(before, f)
  }

  lemma StepEmits(s: Scheduler, e: Event, f: Feed)
    requires Enabled(s, e)
    ensures Get(Step(s, e).emitted, f) ==
            if e.SessionGone? && e.session == f.session then []
            else if e.Emits? && e.feed == f then Get(s.emitted, f) + e.entries
            else Get(s.emitted, f)
  {
    if e.SessionGone? {
      FeedsAre(e.session, f);
    }
  }

  lemma {:induction false} EmittedIsHistory(trace: Trace<Event>, f: Feed)
    requires Legal(trace)
    ensures Get(Run(trace).emitted, f) == EmittedOn(trace, f)
  {
    hide Step, Valid, Get;
    match trace
    case Start => NothingEmitted(f);
    case Then(before, e) =>
      EmittedIsHistory(before, f);
      StepEmits(Run(before), e, f);
  }

  lemma NothingEmitted(f: Feed)
    ensures Get(Initial().emitted, f) == []
  {
  }

  /**
   * In every run what has been flushed on a feed and what still waits there are all that was emitted on it, in order,
   * since its session was last removed, and what a subscriber has received and what waits end with the newest entry.
   */
  lemma NothingIsLost(trace: Trace<Event>, f: Feed, x: Subscriber)
    requires Legal(trace)
    ensures var s := Run(trace);
            && Get(s.sent, f) + Get(s.pending, f) == EmittedOn(trace, f)
            && (Follows(s, f, x) ==>
                  && (x, f) in s.base && s.base[(x, f)] <= |Get(s.sent, f)|
                  && Get(s.got, (x, f)) + Get(s.pending, f) == EmittedOn(trace, f)[s.base[(x, f)]..])
  {
    EmittedIsHistory(trace, f);
    BatchConservation(trace, f, x);
  }

  /** A new subscriber is owed what waits when it joins, and everything after that. */
  lemma OwedFromNow(s: Scheduler, f: Feed, x: Subscriber)
    ensures var n := Step(s, Subscribes(f, x));
            && Get(n.got, (x, f)) == [] && (x, f) in n.base && n.base[(x, f)] == |Get(s.sent, f)|
            && Get(n.sent, f) == Get(s.sent, f) && Get(n.pending, f) == Get(s.pending, f)
  {
  }

  /** The timer brings everyone who follows the feed all that waits on it, and nothing is left waiting. */
  lemma TimerFlushes(s: Scheduler, f: Feed, x: Subscriber)
    requires Valid(s) && Enabled(s, TimerFires(f)) && Follows(s, f, x)
    ensures var n := Step(s, TimerFires(f));
            && Get(n.got, (x, f)) == Get(s.got, (x, f)) + Get(s.pending, f)
            && Get(n.pending, f) == [] && !n.loops[f].armed && n.loops[f].subscribers == s.loops[f].subscribers
  {
  }
}
