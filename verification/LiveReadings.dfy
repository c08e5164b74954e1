/** What becomes of the reads of a live loop: who is sent what, and what is cached for those who come later. */
module LiveReadings {
  import opened Common
  import opened ReadingLoops

  /** The last frame of any kind that `subscriber` was sent on `key`. */
  function LastFrame(log: seq<Delivery>, subscriber: Subscriber, key: Key): Option<Frame> {
    if log == [] then None
    else
      var d := log[|log| - 1];
      if subscriber in d.to && d.key == key then Some(d.frame) else LastFrame(log[..|log| - 1], subscriber, key)
  }

  lemma LastFrameSent(log: seq<Delivery>, d: Delivery, subscriber: Subscriber, key: Key)
    ensures LastFrame(log + [d], subscriber, key) ==
            if subscriber in d.to && d.key == key then Some(d.frame) else LastFrame(log, subscriber, key)
  {
    assert (log + [d])[..|log|] == log;
  }

  /**
   * A read of a live loop reaches everyone subscribed to its key, and no one else, as the last frame they were sent
   * on it. A reading is cached and clears the error; an error is cached beside the reading there is. The loop can
   * be read again.
   */
  lemma ReadReaches(s: Scheduler, l: nat, outcome: Frame, x: Subscriber)
    requires Valid(s) && l in s.pending && Live(s, l)
    ensures var n := Step(s, ReadSettles(l, outcome));
            var key := s.objects[l].key;
            && Live(n, l) && !n.objects[l].inFlight && n.objects[l].subscribers == s.objects[l].subscribers
            && n.loops == s.loops && n.timers == s.timers
            && (outcome.Update? ==> n.objects[l].lastPayload == Some(outcome.payload) && n.objects[l].lastError == None)
            && (outcome.Failure? ==>
                  && n.objects[l].lastError == Some(outcome.message)
                  && n.objects[l].lastPayload == s.objects[l].lastPayload)
            && LastFrame(n.log, x, key) == if Subscribed(s, key, x) then Some(outcome) else LastFrame(s.log, x, key)
  {
    LastFrameSent(s.log, Delivery(s.objects[l].subscribers, s.objects[l].key, outcome), x, s.objects[l].key);
  }

  /** Someone who joins a live loop is sent the cached reading at once, or the cached error if there is no reading. */
  lemma LateJoiner(s: Scheduler, key: Key, x: Subscriber)
    requires Valid(s) && key in s.loops
    ensures var n := Step(s, DoSubscribe(key, x));
            var loop := s.objects[s.loops[key]];
            && (loop.lastPayload.Some? ==>
                  n.log == s.log + [Delivery({x}, key, Update(loop.lastPayload.value))])
            && (loop.lastPayload.None? && loop.lastError.Some? ==>
                  n.log == s.log + [Delivery({x}, key, Failure(loop.lastError.value))])
            && (loop.lastPayload.None? && loop.lastError.None? ==> n.log == s.log)
  {
  }

  /** Frames are sent only by reads and to late joiners. */
  lemma OthersAreSilent(s: Scheduler, e: Event)
    requires Valid(s) && Enabled(s, e) && !e.ReadSettles? && !(e.DoSubscribe? && e.key in s.loops)
    ensures Step(s, e).log == s.log
  {
  }

  /** The read that ended with this event was of loop `l` while its key had a loop. */
  predicate Reads(s: Scheduler, e: Event, l: nat)
    requires InRange(s) && Enabled(s, e)
  {
    e.ReadSettles? && e.loop == l && s.objects[l].key in s.loops
  }

  /** The last reading the run has made of loop `l`. */
  ghost function LastReading(trace: Trace<Event>, l: nat): Option<int>
    requires Legal(trace)
  {
    match trace
    case Start => None
    case Then(before, e) =>
      if Reads(Run(before), e, l) && e.outcome.Update? then Some(e.outcome.payload) else LastReading(before, l)
  }

  /** The error of the last read the run has made of loop `l`, if that failed. */
  ghost function LastFailure(trace: Trace<Event>, l: nat): Option<int>
    requires Legal(trace)
  {
    match trace
    case Start => None
    case Then(before, e) =>
      if !Reads(Run(before), e, l) then LastFailure(before, l)
      else
        match e.outcome
        case Update(_) => None
        case Failure(message) => Some(message)
  }

  /** What a step does to what loop `l` has cached; a loop begins with nothing. */
  predicate Caches(s: Scheduler, e: Event, l: nat, n: Scheduler)
    requires InRange(s) && Enabled(s, e) && l < |n.objects|
  {
    var loop := n.objects[l];
    if l >= |s.objects| then loop.lastPayload == None && loop.lastError == None
    else if !Reads(s, e, l) then
      loop.lastPayload == s.objects[l].lastPayload && loop.lastError == s.objects[l].lastError
    else
      match e.outcome
      case Update(payload) => loop.lastPayload == Some(payload) && loop.lastError == None
      case Failure(message) => loop.lastPayload == s.objects[l].lastPayload && loop.lastError == Some(message)
  }

  lemma StepCaches(s: Scheduler, e: Event, l: nat)
    requires Valid(s) && Enabled(s, e) && l < |Step(s, e).objects|
    ensures Caches(s, e, l, Step(s, e))
  {
    assert InRange(s);
    hide Valid, Caches;
    if e.DoSubscribe? {
      SubscribeCaches(s, e, l);
    } else {
      OtherCaches(s, e, l);
    }
  }

  lemma SubscribeCaches(s: Scheduler, e: Event, l: nat)
    requires InRange(s) && e.DoSubscribe? && l < |Step(s, e).objects|
    ensures Caches(s, e, l, Step(s, e))
  {
  }

  lemma OtherCaches(s: Scheduler, e: Event, l: nat)
    requires InRange(s) && Enabled(s, e) && !e.DoSubscribe? && l < |Step(s, e).objects|
    ensures Caches(s, e, l, Step(s, e))
  {
    hide Subscribe;
  }

  lemma {:induction false} CacheIsLastRead(trace: Trace<Event>, l: nat)
    requires Legal(trace)
    ensures l < |Run(trace).objects| ==>
              && Run(trace).objects[l].lastPayload == LastReading(trace, l)
              && Run(trace).objects[l].lastError == LastFailure(trace, l)
    ensures l >= |Run(trace).objects| ==> LastReading(trace, l) == None && LastFailure(trace, l) == None
  {
    match trace
    case Start =>
    case Then(before, e) =>
      CacheIsLastRead(before, l);
      ObjectsStay(Run(before), e);
      hide Step, Valid;
      if l < |Run(trace).objects| {
        StepCaches(Run(before), e, l);
      }
  }

  lemma ObjectsStay(s: Scheduler, e: Event)
    requires Valid(s) && Enabled(s, e)
    ensures |Step(s, e).objects| >= |s.objects|
    ensures e.ReadSettles? ==> e.loop < |s.objects|
  {
    hide OneRead, Quiescent, Agreed;
  }

  /**
   * In every run everyone subscribed to a session that has not been removed has seen, as the latest reading, the last
   * one made of the key's loop, whether it was made before they joined or after; there is none only if the loop has
   * not been read yet.
   */
  lemma LatestReadingSeen(trace: Trace<Event>, k: Key, x: Subscriber)
    requires Legal(trace)
    ensures var s := Run(trace);
            k.session !in s.removed && Subscribed(s, k, x) ==>
              && (x, k) in s.since && s.since[(x, k)] <= |s.log|
              && LastUpdate(s.log, x, k, s.since[(x, k)]) == LastReading(trace, s.loops[k])
  {
    hide Legal, Run, LastReading, LastUpdate;
    var s := Run(trace);
    if k.session !in s.removed && Subscribed(s, k, x) {
      ReadingCacheAgreement(trace, k, x);
      CacheIsLastRead(trace, s.loops[k]);
    }
  }
}
