/** The browser's listeners over whole runs: who they are, and when they make the store talk to the server. */
module Listeners {
  import opened Common
  import opened SubscriptionProtocol
  import R = ReadingLoops

  /** The store has this listener for this key. */
  predicate Listening(c: Client, key: Key, listener: nat) {
    key in c.listeners && listener in c.listeners[key]
  }

  /** A removal notice of the session arrives. */
  predicate Hears(w: System, e: Event, session: nat)
    requires Enabled(w, e)
  {
    e.NoticeArrives? && w.conns[w.client.socket.id].notices[0] == session
  }

  /** One step makes or ends one listener, or ends those of a removed session; all others stay. */
  lemma WhoListens(w: System, e: Event, key: Key, listener: nat)
    requires Valid(w) && Enabled(w, e)
    ensures Listening(Step(w, e).client, key, listener) <==>
            || e == AddListener(key, listener)
            || (Listening(w.client, key, listener) && e != DropListener(key, listener) && !Hears(w, e, key.session))
  {
    hide R.Valid, R.Step, R.Subscribe, R.Unsubscribe, R.RemoveSubscriber, R.RemoveSession;
    hide WireAgrees, ServerConsistent, DroppedAreRemoved;
    match e
    case DropListener(k, l) => DropLeaves(w.client, k, l, key, listener);
    case _ =>
  }

  lemma DropLeaves(c: Client, key: Key, listener: nat, k: Key, x: nat)
    ensures Listening(UnsubscribeTopic(c, key, listener).client, k, x) <==>
            Listening(c, k, x) && !(k == key && x == listener)
  {
    if key in c.listeners {
      var rest := c.listeners[key] - {listener};
      assert x in rest <==> x in c.listeners[key] && x != listener;
    }
  }

  /** The listener was added in the run and neither dropped nor told of the session's removal since. */
  ghost predicate AddedAndKept(trace: Trace<Event>, key: Key, listener: nat)
    requires Legal(trace)
  {
    trace.Then? &&
    (|| trace.event == AddListener(key, listener)
     || (&& AddedAndKept(trace.before, key, listener) && trace.event != DropListener(key, listener)
         && !Hears(Run(trace.before), trace.event, key.session)))
  }

  /** In every run the store has exactly the listeners that were added and kept. */
  lemma {:induction false} ListenersAreThoseAdded(trace: Trace<Event>, key: Key, listener: nat)
    requires Legal(trace)
    ensures Listening(Run(trace).client, key, listener) <==> AddedAndKept(trace, key, listener)
  {
    match trace
    case Start =>
    case Then(before, event) =>
      hide Step, Valid, Listening;
      ListenersAreThoseAdded(before, key, listener);
      WhoListens(Run(before), event, key, listener);
  }

  /** What a step has put on the socket the store has open. */
  predicate Posts(w: System, n: System, messages: seq<Message>) {
    && |n.conns| == |w.conns|
    && forall id :: 0 <= id < |w.conns| ==>
         Wire(n.conns[id]) == if w.client.socket == Opened(id) then Wire(w.conns[id]) + messages else Wire(w.conns[id])
  }

  ghost predicate NobodyAdded(trace: Trace<Event>, key: Key)
    requires Legal(trace)
  {
    forall x :: !AddedAndKept(trace, key, x)
  }

  ghost predicate OnlyAdded(trace: Trace<Event>, key: Key, listener: nat)
    requires Legal(trace)
  {
    forall x :: AddedAndKept(trace, key, x) <==> x == listener
  }

  ghost predicate NobodyListens(c: Client, key: Key) {
    forall x :: !Listening(c, key, x)
  }

  ghost predicate OnlyListens(c: Client, key: Key, listener: nat) {
    forall x :: Listening(c, key, x) <==> x == listener
  }

  lemma SameListeners(trace: Trace<Event>, key: Key, listener: nat)
    requires Legal(trace)
    ensures NobodyAdded(trace, key) <==> NobodyListens(Run(trace).client, key)
    ensures OnlyAdded(trace, key, listener) <==> OnlyListens(Run(trace).client, key, listener)
  {
    hide Legal, Run, AddedAndKept, Listening;
    forall x ensures AddedAndKept(trace, key, x) <==> Listening(Run(trace).client, key, x) {
      ListenersAreThoseAdded(trace, key, x);
    }
  }

  /**
   * In every run the store subscribes at the first listener of a key and unsubscribes at the last: adding one
   * posts a subscribe if and only if no listener of the key is left from before, dropping one posts an unsubscribe
   * if and only if it is there and no other is.
   */
  lemma FirstAndLast(trace: Trace<Event>, key: Key, listener: nat)
    requires Legal(trace)
    ensures Posts(Run(trace), Step(Run(trace), AddListener(key, listener)),
                  if NobodyAdded(trace, key) then [Subscribe(key)] else [])
    ensures Posts(Run(trace), Step(Run(trace), DropListener(key, listener)),
                  if OnlyAdded(trace, key, listener) then [Unsubscribe(key)] else [])
  {
    assert Valid(Run(trace));
    hide Legal, Run, NobodyAdded, OnlyAdded, NobodyListens, OnlyListens, Valid, Posts, Step;
    SameListeners(trace, key, listener);
    FirstPosts(Run(trace), key, listener);
    LastPosts(Run(trace), key, listener);
  }

  lemma FirstPosts(w: System, key: Key, listener: nat)
    requires Valid(w)
    ensures Posts(w, Step(w, AddListener(key, listener)),
                  if NobodyListens(w.client, key) then [Subscribe(key)] else [])
  {
    hide R.Valid, WireAgrees, ServerConsistent, DroppedAreRemoved;
    if key in w.client.listeners {
      var x :| x in w.client.listeners[key];
      assert Listening(w.client, key, x);
    }
    assert forall c: Conn :: Wire(c) + [] == Wire(c);
    if w.client.socket.Opened? && key !in w.client.listeners {
      DeliveredOne(w, SubscribeTopic(w.client, key, listener), Subscribe(key));
    }
  }

  lemma LastPosts(w: System, key: Key, listener: nat)
    requires Valid(w)
    ensures Posts(w, Step(w, DropListener(key, listener)),
                  if OnlyListens(w.client, key, listener) then [Unsubscribe(key)] else [])
  {
    hide R.Valid, WireAgrees, ServerConsistent, DroppedAreRemoved;
    assert forall c: Conn :: Wire(c) + [] == Wire(c);
    var sent := UnsubscribeTopic(w.client, key, listener);
    LastListener(w.client, key, listener);
    if w.client.socket.Opened? && sent.messages != [] {
      DeliveredOne(w, sent, Unsubscribe(key));
    }
  }

  lemma LastListener(c: Client, key: Key, listener: nat)
    requires StoreConsistent(c)
    ensures UnsubscribeTopic(c, key, listener).messages ==
            if OnlyListens(c, key, listener) && c.socket.Opened? then [Unsubscribe(key)] else []
  {
    if key in c.listeners {
      var rest := c.listeners[key] - {listener};
      if rest == {} {
        var x :| x in c.listeners[key];
        assert x in rest || x == listener;
        assert c.listeners[key] == {listener};
        assert OnlyListens(c, key, listener);
      } else {
        var x :| x in rest;
        assert x != listener && Listening(c, key, x);
        assert !OnlyListens(c, key, listener);
      }
    } else {
      assert !Listening(c, key, listener);
    }
  }

  /** When a session closes every socket the server still has is told, and no other. */
  lemma EveryoneIsTold(w: System, session: nat, id: nat)
    requires Valid(w) && id < |w.conns|
    ensures var n := Step(w, SessionCloses(session));
            && |n.conns| == |w.conns|
            && n.conns[id].notices == w.conns[id].notices + (if w.conns[id].gone then [] else [session])
            && n.conns[id] == w.conns[id].(notices := n.conns[id].notices)
            && session in n.scheduler.removed
  {
  }
}
