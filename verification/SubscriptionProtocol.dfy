/**
 * The subscription protocol end to end: the browser's store with its listeners and its one socket, the
 * server's handlers for every socket, the messages under way between them, and the reading scheduler
 * behind the server. Sockets drop and reconnect at any time; each reconnect is a new socket.
 */
module SubscriptionProtocol {
  import opened Common
  import R = ReadingLoops

  type Key = R.Key

  datatype Message = Subscribe(key: Key) | Unsubscribe(key: Key)

  // ---------------------------------------------------------------------------
  // The browser's store
  // ---------------------------------------------------------------------------

  /** The store's socket: none, or the socket's name and its ready state. */
  datatype Socket = NoSocket | Connecting(id: nat) | Opened(id: nat) | Closing(id: nat)

  datatype Client = Client(
    listeners: map<Key, set<nat>>,
    subscribedOnServer: set<Key>,
    socket: Socket)

  /** A client step: the new store and what it puts on its socket. */
  datatype Sent = Sent(client: Client, messages: seq<Message>)

  function Post(c: Client, m: Message): seq<Message> {
    if c.socket.Opened? then [m] else []
  }

  function SubscribeTopic(c: Client, key: Key, listener: nat): Sent {
    var existing := if key in c.listeners then c.listeners[key] else {};
    var added := c.(listeners := c.listeners[key := existing + {listener}]);
    if key !in c.subscribedOnServer && c.socket.Opened?
    then Sent(added.(subscribedOnServer := added.subscribedOnServer + {key}), [Subscribe(key)])
    else Sent(added, [])
  }

  /** The closure `subscribeTopic` returns; calling it again, or late, is harmless. */
  function UnsubscribeTopic(c: Client, key: Key, listener: nat): Sent {
    if key !in c.listeners then Sent(c, [])
    else
      var rest := c.listeners[key] - {listener};
      if rest != {} then Sent(c.(listeners := c.listeners[key := rest]), [])
      else
        var gone := c.(listeners := c.listeners - {key}, subscribedOnServer := c.subscribedOnServer - {key});
        if key in c.subscribedOnServer then Sent(gone, Post(c, Unsubscribe(key))) else Sent(gone, [])
  }

  function SubscribeEach(keys: seq<Key>): (r: seq<Message>)
    ensures |r| == |keys| && forall i :: 0 <= i < |keys| ==> r[i] == Subscribe(keys[i])
  {
    seq(|keys|, i requires 0 <= i < |keys| => Subscribe(keys[i]))
  }

  /** The socket's open event: every key with a listener is subscribed again, in the map's order. */
  function OnOpen(c: Client, order: seq<Key>): Sent
    requires c.socket.Connecting?
  {
    Sent(c.(socket := Opened(c.socket.id), subscribedOnServer := c.subscribedOnServer + set k | k in order),
         SubscribeEach(order))
  }

  function OnClose(c: Client): Client {
    c.(socket := NoSocket, subscribedOnServer := {})
  }

  /** `sessions:removed`: the session's listeners are dropped without a word to the server. */
  function OnRemoved(c: Client, session: nat): Client {
    var gone := set k | k in c.listeners && k.session == session;
    c.(listeners := c.listeners - gone, subscribedOnServer := c.subscribedOnServer - gone)
  }

  // ---------------------------------------------------------------------------
  // The server's sockets
  // ---------------------------------------------------------------------------

  /**
   * One socket on the server: the messages it has handled, those still under way, the removal notices
   * under way to the browser, its `subscriptions` set, and whether its cleanup has run.
   */
  datatype Conn = Conn(
    handled: seq<Message>,
    inbox: seq<Message>,
    notices: seq<nat>,
    subscriptions: set<Key>,
    gone: bool)

  /** What a message does to a socket's set: a repeated subscribe or unsubscribe changes nothing. */
  function Apply(subscriptions: set<Key>, m: Message): set<Key> {
    match m
    case Subscribe(key) => subscriptions + {key}
    case Unsubscribe(key) => subscriptions - {key}
  }

  function Consume(subscriptions: set<Key>, messages: seq<Message>): set<Key> {
    if messages == [] then subscriptions
    else Apply(Consume(subscriptions, messages[..|messages| - 1]), messages[|messages| - 1])
  }

  /** Topics below this number have a reading loop; the others go elsewhere or nowhere. */
  const READING_TOPICS := 12

  predicate IsReading(key: Key) {
    key.topic < READING_TOPICS
  }

  /**
   * `dropped` and `repeated` record, for the store's current socket, the keys a removal notice made the store
   * drop and nobody has listened to since, and those listened to again after that.
   */
  datatype System = System(
    client: Client,
    conns: seq<Conn>,
    scheduler: R.Scheduler,
    dropped: set<Key>,
    repeated: set<Key>)

  function Initial(): System {
    System(Client(map[], {}, NoSocket), [], R.Initial(), {}, {})
  }

  function Deliver(w: System, s: Sent): System {
    var w := w.(client := s.client);
    if s.messages == [] || s.client.socket.NoSocket? || s.client.socket.id >= |w.conns| then w
    else
      var id := s.client.socket.id;
      w.(conns := w.conns[id := w.conns[id].(inbox := w.conns[id].inbox + s.messages)])
  }

  /** A panel listens to a key; the first listener on an open socket makes the store subscribe. */
  function Listen(w: System, key: Key, listener: nat): System {
    var sent := SubscribeTopic(w.client, key, listener);
    if sent.messages == [] then Deliver(w, sent)
    else
      Deliver(w, sent).(dropped := w.dropped - {key},
                        repeated := if key in w.dropped then w.repeated + {key} else w.repeated)
  }

  /** The keys of a session with a listener. */
  function KeysOf(c: Client, session: nat): set<Key> {
    set k: Key | k in c.listeners && k.session == session
  }

  /** The socket's message handler. */
  function Receive(w: System, id: nat): System
    requires id < |w.conns| && w.conns[id].inbox != [] && R.InRange(w.scheduler)
  {
    var c := w.conns[id];
    var m := c.inbox[0];
    var c' := c.(inbox := c.inbox[1..], handled := c.handled + [m]);
    match m
    case Subscribe(key) =>
      if key in c.subscriptions then w.(conns := w.conns[id := c'])
      else
        w.(conns := w.conns[id := c'.(subscriptions := c.subscriptions + {key})],
           scheduler := if IsReading(key) then R.Subscribe(w.scheduler, key, id) else w.scheduler)
    case Unsubscribe(key) =>
      if key !in c.subscriptions then w.(conns := w.conns[id := c'])
      else
        w.(conns := w.conns[id := c'.(subscriptions := c.subscriptions - {key})],
           scheduler := if IsReading(key) then R.Unsubscribe(w.scheduler, key, id) else w.scheduler)
  }

  function Cleanup(w: System, id: nat): System
    requires id < |w.conns| && R.InRange(w.scheduler)
  {
    w.(conns := w.conns[id := w.conns[id].(subscriptions := {}, gone := true)],
       scheduler := R.RemoveSubscriber(w.scheduler, id))
  }

  /** A session closes: its loops stop and every socket still open is told. */
  function Remove(w: System, session: nat): System {
    w.(conns := seq(|w.conns|, id requires 0 <= id < |w.conns| =>
                 if w.conns[id].gone then w.conns[id]
                 else w.conns[id].(notices := w.conns[id].notices + [session])),
       scheduler := R.RemoveSession(w.scheduler, session))
  }

  // ---------------------------------------------------------------------------
  // Runs
  // ---------------------------------------------------------------------------

  datatype Event =
    | AddListener(key: Key, listener: nat)
    | DropListener(key: Key, listener: nat)
    | Connect
    | SocketOpens(order: seq<Key>)
    | SocketDrops
    | CloseEvent
    | NoticeArrives
    | MessageArrives(id: nat)
    | ServerSideClose(id: nat)
    | SessionCloses(session: nat)
    | LoopRuns(event: R.Event)

  predicate InOrderOf(order: seq<Key>, keys: set<Key>) {
    && (set k | k in order) == keys
    && (forall i, j :: 0 <= i < j < |order| ==> order[i] != order[j])
  }

  predicate Enabled(w: System, e: Event) {
    match e
    case SocketOpens(order) => w.client.socket.Connecting? && InOrderOf(order, w.client.listeners.Keys)
    case SocketDrops => !w.client.socket.NoSocket?
    case CloseEvent => !w.client.socket.NoSocket?
    case NoticeArrives =>
      && (w.client.socket.Opened? || w.client.socket.Closing?)
      && w.client.socket.id < |w.conns| && w.conns[w.client.socket.id].notices != []
    case MessageArrives(id) => id < |w.conns| && w.conns[id].inbox != [] && !w.conns[id].gone
    case ServerSideClose(id) => id < |w.conns|
    case LoopRuns(event) => (event.TimerFires? || event.ReadSettles?) && R.Enabled(w.scheduler, event)
    case _ => true
  }

  function Step(w: System, e: Event): System
    requires R.InRange(w.scheduler) && Enabled(w, e)
  {
    match e
    case AddListener(key, listener) => Listen(w, key, listener)
    case DropListener(key, listener) => Deliver(w, UnsubscribeTopic(w.client, key, listener))
    case Connect =>
      if !w.client.socket.NoSocket? then w
      else
        w.(client := w.client.(socket := Connecting(|w.conns|)), conns := w.conns + [Conn([], [], [], {}, false)],
           dropped := {}, repeated := {})
    case SocketOpens(order) => Deliver(w, OnOpen(w.client, order))
    case SocketDrops => w.(client := w.client.(socket := Closing(w.client.socket.id)))
    case CloseEvent => w.(client := OnClose(w.client))
    case NoticeArrives =>
      var id := w.client.socket.id;
      var c := w.conns[id];
      w.(client := OnRemoved(w.client, c.notices[0]), conns := w.conns[id := c.(notices := c.notices[1..])],
         dropped := w.dropped + KeysOf(w.client, c.notices[0]))
    case MessageArrives(id) => Receive(w, id)
    case ServerSideClose(id) => Cleanup(w, id)
    case SessionCloses(session) => Remove(w, session)
    case LoopRuns(event) => w.(scheduler := R.Step(w.scheduler, event))
  }

  // ---------------------------------------------------------------------------
  // Invariant
  // ---------------------------------------------------------------------------

  /** The store knows what it asked of the server on its open socket, and asked for nothing else. */
  ghost predicate StoreConsistent(c: Client) {
    && (forall k | k in c.listeners :: c.listeners[k] != {})
    && match c.socket
       case Opened(_) => c.subscribedOnServer == c.listeners.Keys
       case Closing(_) => c.subscribedOnServer <= c.listeners.Keys
       case _ => c.subscribedOnServer == {}
  }

  ghost predicate SocketKnown(w: System) {
    match w.client.socket
    case NoSocket => true
    case Connecting(id) =>
      id < |w.conns| && w.conns[id].inbox == [] && w.conns[id].handled == [] && w.dropped == {} && w.repeated == {}
    case Opened(id) => id < |w.conns|
    case Closing(id) => id < |w.conns|
  }

  /** Every message about `key` changes what the server has on the list. */
  predicate Alternates(messages: seq<Message>, key: Key) {
    messages == [] ||
    var front := messages[..|messages| - 1];
    var last := messages[|messages| - 1];
    Alternates(front, key) && (last.key == key ==> (last.Subscribe? <==> key !in Consume({}, front)))
  }

  /** All that was ever sent on a socket. */
  function Wire(c: Conn): seq<Message> {
    c.handled + c.inbox
  }

  /**
   * On the open socket, all that was sent adds up to the keys with a listener and the dropped ones, and
   * each message about a key changed something unless the key was listened to again after it was dropped.
   */
  ghost predicate WireAgrees(w: System)
    requires SocketKnown(w)
  {
    w.client.socket.Opened? ==>
      && Consume({}, Wire(w.conns[w.client.socket.id])) == w.client.listeners.Keys + w.dropped
      && w.dropped !! w.client.listeners.Keys
      && forall k: Key :: Alternates(Wire(w.conns[w.client.socket.id]), k) <==> k !in w.repeated
  }

  /** Only keys of removed sessions are ever dropped. */
  ghost predicate DroppedAreRemoved(w: System) {
    forall k | k in w.dropped + w.repeated :: k.session in w.scheduler.removed
  }

  /** A socket's set is what the messages it handled add up to, and its scheduler entries follow it. */
  ghost predicate ServerConsistent(w: System) {
    && (forall id :: 0 <= id < |w.conns| ==>
          w.conns[id].subscriptions == if w.conns[id].gone then {} else Consume({}, w.conns[id].handled))
    && (forall id: nat, k :: |w.conns| <= id ==> !R.Subscribed(w.scheduler, k, id))
    && (forall id: nat, k: Key :: id < |w.conns| && k.session !in w.scheduler.removed ==>
          (R.Subscribed(w.scheduler, k, id) <==> k in w.conns[id].subscriptions && IsReading(k)))
    && (forall id, i :: 0 <= id < |w.conns| && 0 <= i < |w.conns[id].notices| ==>
          w.conns[id].notices[i] in w.scheduler.removed)
  }

  ghost predicate Valid(w: System) {
    && StoreConsistent(w.client) && SocketKnown(w) && WireAgrees(w) && DroppedAreRemoved(w)
    && R.Valid(w.scheduler) && ServerConsistent(w)
  }

  lemma ConsumeSnoc(subscriptions: set<Key>, messages: seq<Message>, m: Message)
    ensures Consume(subscriptions, messages + [m]) == Apply(Consume(subscriptions, messages), m)
  {
    assert (messages + [m])[..|messages|] == messages;
  }

  lemma AlternatesSnoc(messages: seq<Message>, m: Message, key: Key)
    ensures Alternates(messages + [m], key) <==>
            Alternates(messages, key) && (m.key == key ==> (m.Subscribe? <==> key !in Consume({}, messages)))
  {
    assert (messages + [m])[..|messages|] == messages;
  }

  /** Something is put on the open socket. */
  lemma PostAgrees(w: System, n: System, m: Message)
    requires Valid(w) && w.client.socket.Opened? && |n.conns| == |w.conns| && n.client.socket == w.client.socket
    requires var id := w.client.socket.id; Wire(n.conns[id]) == Wire(w.conns[id]) + [m]
    requires n.client.listeners.Keys == Apply(w.client.listeners.Keys, m)
    requires m.Subscribe? <==> m.key !in w.client.listeners
    requires n.dropped == w.dropped - {m.key}
    requires n.repeated == if m.key in w.dropped then w.repeated + {m.key} else w.repeated
    ensures WireAgrees(n)
  {
    var c := w.conns[w.client.socket.id];
    var c' := n.conns[w.client.socket.id];
    ConsumeSnoc({}, Wire(c), m);
    forall k: Key ensures Alternates(Wire(c'), k) <==> k !in n.repeated {
      AlternatesSnoc(Wire(c), m, k);
      assert Alternates(Wire(c), k) <==> k !in w.repeated;
    }
  }

  /** The server's side does not change while messages are only queued. */
  lemma QueueOnly(w: System, n: System)
    requires ServerConsistent(w) && n.scheduler == w.scheduler && |n.conns| == |w.conns|
    requires forall id :: 0 <= id < |w.conns| ==> n.conns[id] == w.conns[id].(inbox := n.conns[id].inbox)
    ensures ServerConsistent(n)
  {
  }

  lemma DeliveredOne(w: System, s: Sent, m: Message)
    requires s.client.socket.Opened? && s.client.socket.id < |w.conns| && s.messages == [m]
    ensures var id := s.client.socket.id;
            Wire(Deliver(w, s).conns[id]) == Wire(w.conns[id]) + [m]
  {
  }

  lemma AddListenerValid(w: System, key: Key, listener: nat)
    requires Valid(w)
    ensures Valid(Step(w, AddListener(key, listener)))
  {
    var n := Step(w, AddListener(key, listener));
    QueueOnly(w, n);
    if w.client.socket.Opened? && key !in w.client.listeners {
      DeliveredOne(w, SubscribeTopic(w.client, key, listener), Subscribe(key));
      PostAgrees(w, n, Subscribe(key));
    }
  }

  lemma DropListenerValid(w: System, key: Key, listener: nat)
    requires Valid(w)
    ensures Valid(Step(w, DropListener(key, listener)))
  {
    var n := Step(w, DropListener(key, listener));
    QueueOnly(w, n);
    if w.client.socket.Opened? && key in w.client.listeners && key !in n.client.listeners {
      DeliveredOne(w, UnsubscribeTopic(w.client, key, listener), Unsubscribe(key));
      PostAgrees(w, n, Unsubscribe(key));
    }
  }

  lemma SubscribeEachSnoc(order: seq<Key>, last: Key)
    ensures SubscribeEach(order + [last]) == SubscribeEach(order) + [Subscribe(last)]
  {
  }

  /** Subscribing to each of some distinct keys on a fresh socket. */
  lemma {:induction false} EachOnFreshSocket(order: seq<Key>)
    requires forall i, j :: 0 <= i < j < |order| ==> order[i] != order[j]
    ensures Consume({}, SubscribeEach(order)) == set k | k in order
    ensures forall k :: Alternates(SubscribeEach(order), k)
  {
    if order == [] {
      assert SubscribeEach(order) == [];
    } else {
      var front, last := order[..|order| - 1], order[|order| - 1];
      EachOnFreshSocket(front);
      EachAndOneMore(front, last);
      assert order == front + [last];
    }
  }

  lemma EachAndOneMore(front: seq<Key>, last: Key)
    requires last !in front && Consume({}, SubscribeEach(front)) == set k | k in front
    requires forall k :: Alternates(SubscribeEach(front), k)
    ensures Consume({}, SubscribeEach(front + [last])) == set k | k in front + [last]
    ensures forall k :: Alternates(SubscribeEach(front + [last]), k)
  {
    hide Alternates, Consume;
    SubscribeEachSnoc(front, last);
    ConsumeSnoc({}, SubscribeEach(front), Subscribe(last));
    forall k ensures Alternates(SubscribeEach(front + [last]), k) {
      AlternatesSnoc(SubscribeEach(front), Subscribe(last), k);
    }
  }

  lemma OpensValid(w: System, order: seq<Key>)
    requires Valid(w) && Enabled(w, SocketOpens(order))
    ensures Valid(Step(w, SocketOpens(order)))
  {
    QueueOnly(w, Step(w, SocketOpens(order)));
    OpensWire(w, order);
  }

  /** The first messages of a socket are the subscribes of its open event. */
  lemma OpensShape(w: System, order: seq<Key>)
    requires SocketKnown(w) && R.InRange(w.scheduler) && Enabled(w, SocketOpens(order))
    ensures var n := Step(w, SocketOpens(order));
            var id := w.client.socket.id;
            && n.client.socket == Opened(id) && id < |n.conns| && n.client.listeners == w.client.listeners
            && n.client.subscribedOnServer == w.client.subscribedOnServer + w.client.listeners.Keys
            && Wire(n.conns[id]) == SubscribeEach(order) && n.dropped == {} && n.repeated == {}
  {
    hide R.InRange, Consume, Alternates;
    var n := Step(w, SocketOpens(order));
    var id := w.client.socket.id;
    assert n.conns[id].inbox == SubscribeEach(order) && n.conns[id].handled == [];
  }

  lemma OpensWire(w: System, order: seq<Key>)
    requires StoreConsistent(w.client) && SocketKnown(w) && R.InRange(w.scheduler) && Enabled(w, SocketOpens(order))
    ensures var n := Step(w, SocketOpens(order));
            StoreConsistent(n.client) && SocketKnown(n) && WireAgrees(n)
  {
    hide Step, R.InRange, Consume, Alternates, SubscribeEach, Wire;
    OpensShape(w, order);
    EachOnFreshSocket(order);
  }

  lemma ConnectValid(w: System)
    requires Valid(w)
    ensures Valid(Step(w, Connect))
  {
  }

  lemma SocketEndsValid(w: System, e: Event)
    requires Valid(w) && Enabled(w, e) && (e.SocketDrops? || e.CloseEvent?)
    ensures Valid(Step(w, e))
  {
  }

  lemma NoticeValid(w: System)
    requires Valid(w) && Enabled(w, NoticeArrives)
    ensures Valid(Step(w, NoticeArrives))
  {
    var n := Step(w, NoticeArrives);
    var id := w.client.socket.id;
    assert Wire(n.conns[id]) == Wire(w.conns[id]);
    assert w.conns[id].notices[0] in w.scheduler.removed;
    assert n.client.listeners.Keys == w.client.listeners.Keys - KeysOf(w.client, w.conns[id].notices[0]);
  }

  /** What a handled message does to the scheduler's subscriptions. */
  function SchedulerEvent(w: System, id: nat): Option<R.Event>
    requires id < |w.conns| && w.conns[id].inbox != []
  {
    var c := w.conns[id];
    match c.inbox[0]
    case Subscribe(key) => if key !in c.subscriptions && IsReading(key) then Some(R.DoSubscribe(key, id)) else None
    case Unsubscribe(key) => if key in c.subscriptions && IsReading(key) then Some(R.DoUnsubscribe(key, id)) else None
  }

  lemma MessageScheduler(w: System, id: nat)
    requires R.Valid(w.scheduler) && id < |w.conns| && w.conns[id].inbox != []
    ensures var n := Receive(w, id);
            var e := SchedulerEvent(w, id);
            && R.Valid(n.scheduler) && n.scheduler.removed == w.scheduler.removed
            && forall k, x ::
                 R.Subscribed(n.scheduler, k, x) <==>
                 match e
                 case Some(DoSubscribe(key, _)) => R.Subscribed(w.scheduler, k, x) || (k == key && x == id)
                 case Some(DoUnsubscribe(key, _)) => R.Subscribed(w.scheduler, k, x) && !(k == key && x == id)
                 case _ => R.Subscribed(w.scheduler, k, x)
  {
    var n := Receive(w, id);
    var e := SchedulerEvent(w, id);
    if e.Some? {
      R.StepValid(w.scheduler, e.value);
      forall k, x
        ensures R.Subscribed(n.scheduler, k, x) <==>
                match e.value
                case DoSubscribe(key, _) => R.Subscribed(w.scheduler, k, x) || (k == key && x == id)
                case DoUnsubscribe(key, _) => R.Subscribed(w.scheduler, k, x) && !(k == key && x == id)
                case _ => true
      {
        R.WhoIsSubscribed(w.scheduler, e.value, k, x);
      }
    }
  }

  lemma MessageServer(w: System, id: nat)
    requires R.Valid(w.scheduler) && R.InRange(w.scheduler) && ServerConsistent(w) && Enabled(w, MessageArrives(id))
    ensures ServerConsistent(Receive(w, id))
  {
    hide R.Subscribed, R.Subscribe, R.Unsubscribe, R.Valid, Consume;
    var m := w.conns[id].inbox[0];
    MessageScheduler(w, id);
    ConsumeSnoc({}, w.conns[id].handled, m);
    var n := Receive(w, id);
    assert n.conns[id].subscriptions == Apply(w.conns[id].subscriptions, m);
  }

  /** Handling a message moves it from the queue to the handled ones, and no more of what was sent. */
  lemma MessageWire(w: System, id: nat)
    requires R.InRange(w.scheduler) && Enabled(w, MessageArrives(id))
    ensures var n := Receive(w, id);
            && n.client == w.client && n.dropped == w.dropped && n.repeated == w.repeated
            && |n.conns| == |w.conns| && Wire(n.conns[id]) == Wire(w.conns[id])
            && forall i :: 0 <= i < |w.conns| && i != id ==> n.conns[i] == w.conns[i]
  {
    hide R.Subscribe, R.Unsubscribe;
  }

  /** What is agreed about the open socket is a matter of what was sent on it. */
  lemma SameWire(w: System, n: System, id: nat)
    requires SocketKnown(w) && WireAgrees(w) && id < |w.conns| && w.conns[id].inbox != []
    requires n.client == w.client && n.dropped == w.dropped && n.repeated == w.repeated
    requires |n.conns| == |w.conns| && Wire(n.conns[id]) == Wire(w.conns[id])
    requires forall i :: 0 <= i < |w.conns| && i != id ==> n.conns[i] == w.conns[i]
    ensures SocketKnown(n) && WireAgrees(n)
  {
    hide Alternates, Consume, Wire;
    assert w.client.socket.Opened? ==>
        Wire(n.conns[w.client.socket.id]) == Wire(w.conns[w.client.socket.id]);
  }

  lemma MessageValid(w: System, id: nat)
    requires Valid(w) && Enabled(w, MessageArrives(id))
    ensures Valid(Step(w, MessageArrives(id)))
  {
    assert R.InRange(w.scheduler);
    hide R.Valid, R.Subscribed, WireAgrees, SocketKnown, ServerConsistent, Receive, Wire;
    MessageScheduler(w, id);
    MessageServer(w, id);
    MessageWire(w, id);
    SameWire(w, Receive(w, id), id);
  }

  lemma CleanupValid(w: System, id: nat)
    requires Valid(w) && id < |w.conns|
    ensures Valid(Step(w, ServerSideClose(id)))
  {
    var n := Step(w, ServerSideClose(id));
    R.StepValid(w.scheduler, R.SocketGone(id));
    forall k, x ensures R.Subscribed(n.scheduler, k, x) <==> R.Subscribed(w.scheduler, k, x) && x != id {
      R.WhoIsSubscribed(w.scheduler, R.SocketGone(id), k, x);
    }
  }

  lemma SessionClosesServer(w: System, session: nat)
    requires R.Valid(w.scheduler) && R.InRange(w.scheduler) && ServerConsistent(w)
    ensures R.Valid(Remove(w, session).scheduler) && ServerConsistent(Remove(w, session))
  {
    var n := Remove(w, session);
    assert n.scheduler.removed == w.scheduler.removed + {session};
    R.StepValid(w.scheduler, R.SessionGone(session));
    forall k, x ensures R.Subscribed(n.scheduler, k, x) <==> R.Subscribed(w.scheduler, k, x) && k.session != session {
      R.WhoIsSubscribed(w.scheduler, R.SessionGone(session), k, x);
    }
    hide R.Valid, R.Subscribed, R.RemoveSession, Consume;
  }

  /** Removal notices are not part of what was sent on a socket. */
  lemma SessionClosesWire(w: System, session: nat)
    requires SocketKnown(w) && WireAgrees(w)
    ensures SocketKnown(Remove(w, session)) && WireAgrees(Remove(w, session))
  {
    hide Consume, Alternates, R.RemoveSession;
    var n := Remove(w, session);
    assert forall id :: 0 <= id < |w.conns| ==> Wire(n.conns[id]) == Wire(w.conns[id]);
  }

  lemma SessionClosesValid(w: System, session: nat)
    requires Valid(w)
    ensures Valid(Step(w, SessionCloses(session)))
  {
    assert R.InRange(w.scheduler);
    hide R.Valid, ServerConsistent, SocketKnown, WireAgrees;
    SessionClosesServer(w, session);
    SessionClosesWire(w, session);
  }

  lemma LoopValid(w: System, e: R.Event)
    requires Valid(w) && Enabled(w, LoopRuns(e))
    ensures Valid(Step(w, LoopRuns(e)))
  {
    var n := Step(w, LoopRuns(e));
    R.StepValid(w.scheduler, e);
    forall k, x ensures R.Subscribed(n.scheduler, k, x) <==> R.Subscribed(w.scheduler, k, x) {
      R.WhoIsSubscribed(w.scheduler, e, k, x);
    }
  }

  lemma StepValid(w: System, e: Event)
    requires Valid(w) && Enabled(w, e)
    ensures Valid(Step(w, e))
  {
    match e
    case AddListener(key, listener) => AddListenerValid(w, key, listener);
    case DropListener(key, listener) => DropListenerValid(w, key, listener);
    case Connect => ConnectValid(w);
    case SocketOpens(order) => OpensValid(w, order);
    case SocketDrops => SocketEndsValid(w, e);
    case CloseEvent => SocketEndsValid(w, e);
    case NoticeArrives => NoticeValid(w);
    case MessageArrives(id) => MessageValid(w, id);
    case ServerSideClose(id) => CleanupValid(w, id);
    case SessionCloses(session) => SessionClosesValid(w, session);
    case LoopRuns(event) => LoopValid(w, event);
  }

  // ---------------------------------------------------------------------------
  // Theorems about every run
  // ---------------------------------------------------------------------------

  ghost predicate Legal(trace: Trace<Event>)
    decreases trace, 0
  {
    trace.Then? ==> Legal(trace.before) && Enabled(Run(trace.before), trace.event)
  }

  ghost function Run(trace: Trace<Event>): (w: System)
    requires Legal(trace)
    ensures Valid(w)
    decreases trace, 1
  {
    match trace
    case Start => Initial()
    case Then(before, event) =>
      StepValid(Run(before), event);
      Step(Run(before), event)
  }

  lemma ConsumeSplit(a: seq<Message>, b: seq<Message>)
    ensures Consume({}, a + b) == Consume(Consume({}, a), b)
  {
    if b == [] {
      assert a + b == a;
    } else {
      var front := b[..|b| - 1];
      assert (a + b)[..|a + b| - 1] == a + front;
      ConsumeSplit(a, front);
    }
  }

  /** The store's socket is open, and the server has not cleaned it up. */
  predicate OpenAtBothEnds(w: System) {
    w.client.socket.Opened? && w.client.socket.id < |w.conns| && !w.conns[w.client.socket.id].gone
  }

  /**
   * Subscription agreement, in every run and across reconnects, for all sessions: while the socket is open
   * at both ends, the server's set, once it has taken the messages still queued, holds exactly the keys with
   * a local listener and those a removal notice made the store drop, and the store's own bookkeeping is
   * exactly the keys with a listener. So the two ends agree on a key if and only if it is not one of those
   * dropped, and no message about it was redundant if and only if it was not listened to again afterwards.
   */
  lemma SubscriptionAgreement(trace: Trace<Event>)
    requires Legal(trace)
    ensures var w := Run(trace);
            OpenAtBothEnds(w) ==>
              var c := w.conns[w.client.socket.id];
              && Consume(c.subscriptions, c.inbox) == w.client.listeners.Keys + w.dropped
              && w.client.subscribedOnServer == w.client.listeners.Keys
              && (forall key :: Agrees(w, key) <==> key !in w.dropped)
              && (forall key :: Alternates(Wire(c), key) <==> key !in w.repeated)
              && (forall key | key in w.dropped + w.repeated :: key.session in w.scheduler.removed)
  {
    var w := Run(trace);
    if OpenAtBothEnds(w) {
      var c := w.conns[w.client.socket.id];
      ConsumeSplit(c.handled, c.inbox);
    }
  }

  /** The server, with what is queued, has `key` on its list exactly if the store has a listener for it. */
  ghost predicate Agrees(w: System, key: Key)
    requires OpenAtBothEnds(w)
  {
    var c := w.conns[w.client.socket.id];
    key in Consume(c.subscriptions, c.inbox) <==> key in w.client.listeners
  }

  lemma AgreesUnlessDropped(w: System, key: Key)
    requires Valid(w) && OpenAtBothEnds(w)
    ensures Agrees(w, key) <==> key !in w.dropped
  {
    var c := w.conns[w.client.socket.id];
    ConsumeSplit(c.handled, c.inbox);
  }

  /**
   * Where agreement on a key is lost: of all steps that leave the socket open, exactly at the removal notice
   * of its session while it has a listener. The removal itself does no harm.
   */
  lemma WhereAgreementIsLost(w: System, e: Event, key: Key)
    requires Valid(w) && Enabled(w, e) && OpenAtBothEnds(w) && OpenAtBothEnds(Step(w, e)) && Agrees(w, key)
    ensures Agrees(Step(w, e), key) <==>
            !(e.NoticeArrives? && key in w.client.listeners && key.session == w.conns[w.client.socket.id].notices[0])
  {
    StepValid(w, e);
    AgreesUnlessDropped(w, key);
    AgreesUnlessDropped(Step(w, e), key);
  }

  /**
   * Once the queue is drained, a reading topic has a listener exactly when the server runs a live loop
   * with this socket among its subscribers, its timer running, and the socket has been sent the cached
   * payload.
   */
  lemma ListenersAreServed(trace: Trace<Event>, key: Key)
    requires Legal(trace) && IsReading(key)
    ensures var w := Run(trace);
            var s := w.scheduler;
            OpenAtBothEnds(w) && w.conns[w.client.socket.id].inbox == [] && key.session !in s.removed ==>
              var id := w.client.socket.id;
              && (key in w.client.listeners <==> R.Subscribed(s, key, id))
              && (key in w.client.listeners ==>
                    && key in s.loops && s.loops[key] in s.timers
                    && R.Subscribed(s, key, id) && R.UpToDate(s, key, id))
  {
    var w := Run(trace);
    if OpenAtBothEnds(w) && w.conns[w.client.socket.id].inbox == [] && key.session !in w.scheduler.removed {
      var c := w.conns[w.client.socket.id];
      SubscriptionAgreement(trace);
      assert Consume(c.subscriptions, []) == c.subscriptions;
      SubscribedIsServed(w, key, w.client.socket.id);
    }
  }

  lemma SubscribedIsServed(w: System, key: Key, id: nat)
    requires R.Valid(w.scheduler) && ServerConsistent(w) && IsReading(key)
    requires id < |w.conns| && !w.conns[id].gone && key.session !in w.scheduler.removed
    ensures var s := w.scheduler;
            && (key in w.conns[id].subscriptions <==> R.Subscribed(s, key, id))
            && (key in w.conns[id].subscriptions ==>
                  key in s.loops && s.loops[key] in s.timers && R.UpToDate(s, key, id))
  {
    if key in w.conns[id].subscriptions {
      assert R.Live(w.scheduler, w.scheduler.loops[key]);
    }
  }

  /** After a socket's cleanup no live loop mentions it, whatever had been subscribed on it. */
  lemma CleanupForgets(trace: Trace<Event>, id: nat, key: Key)
    requires Legal(trace) && id < |Run(trace).conns|
    ensures !R.Subscribed(Cleanup(Run(trace), id).scheduler, key, id)
  {
    R.SocketGoneValid(Run(trace).scheduler, id);
  }

  lemma RunThen(before: Trace<Event>, e: Event)
    requires Legal(before) && Enabled(Run(before), e)
    ensures Legal(Then(before, e)) && Run(Then(before, e)) == Step(Run(before), e)
    ensures R.InRange(Run(before).scheduler) && R.InRange(Run(Then(before, e)).scheduler)
  {
    assert Valid(Run(before)) && Valid(Run(Then(before, e)));
  }

  /** The store with no listener, or one, on its first socket. */
  function Idle(): Client {
    Client(map[], {}, Opened(0))
  }

  function OneListener(key: Key, listener: nat): Client {
    Client(map[key := {listener}], {key}, Opened(0))
  }

  lemma Connects(w: System)
    requires w == Initial()
    ensures Step(w, Connect) == w.(client := Client(map[], {}, Connecting(0)), conns := [Conn([], [], [], {}, false)])
  {
    assert [] + [Conn([], [], [], {}, false)] == [Conn([], [], [], {}, false)];
  }

  lemma OpensEmpty(w: System)
    requires R.InRange(w.scheduler) && w.client == Client(map[], {}, Connecting(0))
    requires w.conns == [Conn([], [], [], {}, false)]
    ensures Enabled(w, SocketOpens([])) && Step(w, SocketOpens([])) == w.(client := Idle())
  {
    assert (set k: Key | k in []) == {};
    assert SubscribeEach([]) == [];
  }

  /** A first listener: the subscribe is queued, and the key is no longer a dropped one. */
  lemma Listens(w: System, c: Conn, key: Key, listener: nat)
    requires R.InRange(w.scheduler) && w.client == Idle() && w.conns == [c]
    ensures Step(w, AddListener(key, listener)) ==
            w.(client := OneListener(key, listener), conns := [c.(inbox := c.inbox + [Subscribe(key)])],
               dropped := w.dropped - {key}, repeated := if key in w.dropped then w.repeated + {key} else w.repeated)
  {
    assert {} + {listener} == {listener} && {} + {key} == {key};
    assert [c][0 := c.(inbox := c.inbox + [Subscribe(key)])] == [c.(inbox := c.inbox + [Subscribe(key)])];
  }

  /** A queued subscribe is taken, or ignored if the key is on the list. */
  lemma TakesSubscribe(w: System, c: Conn, key: Key)
    requires R.InRange(w.scheduler) && w.conns == [c] && c.inbox == [Subscribe(key)] && !c.gone
    ensures Enabled(w, MessageArrives(0))
    ensures var n := Step(w, MessageArrives(0));
            && n.conns ==
               [c.(inbox := [], handled := c.handled + [Subscribe(key)], subscriptions := c.subscriptions + {key})]
            && n.client == w.client && n.dropped == w.dropped && n.repeated == w.repeated
            && (key in c.subscriptions ==> n.scheduler == w.scheduler)
            && n.scheduler.loops.Keys <= w.scheduler.loops.Keys + {key}
  {
    hide R.Subscribe;
    var taken := c.(inbox := [], handled := c.handled + [Subscribe(key)], subscriptions := c.subscriptions + {key});
    assert key in c.subscriptions ==> c.subscriptions + {key} == c.subscriptions;
    assert c.inbox[1..] == [];
    assert [c][0 := taken] == [taken];
    LoopsAfterSubscribe(w.scheduler, key, 0);
  }

  lemma LoopsAfterSubscribe(s: R.Scheduler, key: Key, x: nat)
    requires R.InRange(s)
    ensures R.Subscribe(s, key, x).loops.Keys <= s.loops.Keys + {key}
  {
  }

  lemma TellsStore(w: System, c: Conn, session: nat)
    requires R.InRange(w.scheduler) && w.conns == [c] && !c.gone
    ensures Step(w, SessionCloses(session)) ==
            w.(conns := [c.(notices := c.notices + [session])], scheduler := R.RemoveSession(w.scheduler, session))
  {
    assert Remove(w, session).conns == [c.(notices := c.notices + [session])];
  }

  lemma HearsNotice(w: System, c: Conn, key: Key, listener: nat)
    requires R.InRange(w.scheduler) && w.conns == [c] && c.notices == [key.session]
    requires w.client == OneListener(key, listener)
    ensures Enabled(w, NoticeArrives)
    ensures Step(w, NoticeArrives) == w.(client := Idle(), conns := [c.(notices := [])], dropped := w.dropped + {key})
  {
    assert KeysOf(w.client, key.session) == {key};
    assert OnRemoved(w.client, key.session) == Idle() by {
      assert OnRemoved(w.client, key.session).listeners == map[];
    }
    assert c.notices[1..] == [] && [c][0 := c.(notices := [])] == [c.(notices := [])];
  }

  /** A panel listens on a fresh connection and the server takes the subscription. */
  function OnePanel(key: Key, listener: nat): Trace<Event> {
    Then(Then(Then(Then(Start, Connect), SocketOpens([])), AddListener(key, listener)), MessageArrives(0))
  }

  lemma ListeningRun(key: Key, listener: nat)
    ensures Legal(OnePanel(key, listener))
    ensures var w := Run(OnePanel(key, listener));
            && w.client == OneListener(key, listener) && w.dropped == {} && w.repeated == {}
            && w.conns == [Conn([Subscribe(key)], [], [], {key}, false)] && R.InRange(w.scheduler)
            && w.scheduler.loops.Keys <= {key}
  {
    assert Legal(Start) && Run(Start) == Initial();
    hide Legal, Run, Step, Valid;
    var one := Then(Start, Connect);
    Connects(Run(Start));
    RunThen(Start, Connect);
    OpensEmpty(Run(one));
    RunThen(one, SocketOpens([]));
    var two := Then(one, SocketOpens([]));
    Listens(Run(two), Conn([], [], [], {}, false), key, listener);
    RunThen(two, AddListener(key, listener));
    var three := Then(two, AddListener(key, listener));
    assert [] + [Subscribe(key)] == [Subscribe(key)] && {} + {key} == {key} && {} - {key} == {};
    TakesSubscribe(Run(three), Conn([], [Subscribe(key)], [], {}, false), key);
    RunThen(three, MessageArrives(0));
  }

  /** The session is closed, and the store hears of it. */
  function DropRun(key: Key, listener: nat): Trace<Event> {
    Then(Then(OnePanel(key, listener), SessionCloses(key.session)), NoticeArrives)
  }

  /**
   * Agreement really fails, in a run without any loss of connection: the notice makes the store drop its
   * listeners without a word, and the server keeps the key on its list.
   */
  lemma DroppedKeyLingers(key: Key, listener: nat)
    ensures Legal(DropRun(key, listener))
    ensures var w := Run(DropRun(key, listener));
            && w.client == Idle() && w.conns == [Conn([Subscribe(key)], [], [], {key}, false)]
            && w.dropped == {key} && OpenAtBothEnds(w) && !Agrees(w, key)
            && R.InRange(w.scheduler) && key !in w.scheduler.loops
  {
    ListeningRun(key, listener);
    hide OnePanel, Legal, Run, Step, Valid;
    var start := OnePanel(key, listener);
    var c := Conn([Subscribe(key)], [], [], {key}, false);
    TellsStore(Run(start), c, key.session);
    RunThen(start, SessionCloses(key.session));
    var closed := Then(start, SessionCloses(key.session));
    assert [] + [key.session] == [key.session];
    HearsNotice(Run(closed), c.(notices := [key.session]), key, listener);
    RunThen(closed, NoticeArrives);
    assert Consume({key}, []) == {key};
  }

  /**
   * A panel that then listens to the key again restores the agreement with a message the server ignores: it
   * has a listener, and no loop serves it.
   */
  lemma ListeningAgainIsIgnored(key: Key, first: nat, second: nat)
    ensures var asked := Then(DropRun(key, first), AddListener(key, second));
            var again := Then(asked, MessageArrives(0));
            && Legal(asked) && Legal(again)
            && var w := Run(again);
            && w.client == OneListener(key, second)
            && w.conns == [Conn([Subscribe(key), Subscribe(key)], [], [], {key}, false)]
            && OpenAtBothEnds(w) && Agrees(w, key) && !Alternates(Wire(w.conns[0]), key)
            && key !in w.scheduler.loops
  {
    DroppedKeyLingers(key, first);
    hide DropRun, Legal, Run, Step, Valid;
    var start := DropRun(key, first);
    var c := Conn([Subscribe(key)], [], [], {key}, false);
    Listens(Run(start), c, key, second);
    RunThen(start, AddListener(key, second));
    var asked := Then(start, AddListener(key, second));
    assert [] + [Subscribe(key)] == [Subscribe(key)];
    TakesSubscribe(Run(asked), c.(inbox := [Subscribe(key)]), key);
    RunThen(asked, MessageArrives(0));
    assert [Subscribe(key)] + [Subscribe(key)] == [Subscribe(key), Subscribe(key)] && {key} + {key} == {key};
    assert Consume({key}, []) == {key};
    Redundant(key);
    assert [Subscribe(key), Subscribe(key)] + [] == [Subscribe(key), Subscribe(key)];
  }

  lemma Redundant(key: Key)
    ensures !Alternates([Subscribe(key), Subscribe(key)], key)
  {
    var twice := [Subscribe(key)] + [Subscribe(key)];
    AlternatesSnoc([Subscribe(key)], Subscribe(key), key);
    ConsumeSnoc({}, [], Subscribe(key));
    assert [] + [Subscribe(key)] == [Subscribe(key)];
    assert twice == [Subscribe(key), Subscribe(key)];
  }

  /**
   * A store that missed the notice, because it had no socket when the session was removed, subscribes to the
   * dead session again on reconnect and the server starts a loop for it. The two ends agree about that.
   */
  lemma ReconnectRevivesRemovedSession(w: System, key: Key)
    requires Valid(w) && w.client.socket.NoSocket? && IsReading(key)
    requires w.client.listeners.Keys == {key} && key.session in w.scheduler.removed && key !in w.scheduler.loops
    ensures var id := |w.conns|;
            var w1 := Step(w, Connect);
            && Enabled(w1, SocketOpens([key]))
            && var w2 := Step(w1, SocketOpens([key]));
            && R.InRange(w2.scheduler) && Enabled(w2, MessageArrives(id))
            && var w3 := Step(w2, MessageArrives(id));
            && key in w3.scheduler.loops && R.Subscribed(w3.scheduler, key, id)
            && key.session in w3.scheduler.removed && OpenAtBothEnds(w3) && Agrees(w3, key)
  {
    assert R.InRange(w.scheduler);
    hide Valid, Alternates, WireAgrees, ServerConsistent;
    var id := |w.conns|;
    var w1 := Step(w, Connect);
    assert (set k | k in [key]) == {key};
    var w2 := Step(w1, SocketOpens([key]));
    assert SubscribeEach([key]) == [Subscribe(key)];
    assert w2.conns[id].inbox == [Subscribe(key)] && w2.conns[id].subscriptions == {};
  }

  /** A panel listens, the connection is lost, and the session is closed before there is another. */
  function Missed(key: Key, listener: nat): Trace<Event> {
    Then(Then(OnePanel(key, listener), CloseEvent), SessionCloses(key.session))
  }

  lemma MissedRun(key: Key, listener: nat)
    ensures Legal(Missed(key, listener))
    ensures var w := Run(Missed(key, listener));
            && w.client == Client(map[key := {listener}], {}, NoSocket) && |w.conns| == 1
            && key.session in w.scheduler.removed && key !in w.scheduler.loops
  {
    ListeningRun(key, listener);
    hide OnePanel, Legal, Run, Valid;
    var start := OnePanel(key, listener);
    var lost := Then(start, CloseEvent);
    RunThen(start, CloseEvent);
    RunThen(lost, SessionCloses(key.session));
  }

  /** It connects again and subscribes to what it listens to. */
  function Revived(key: Key, listener: nat): Trace<Event> {
    Then(Then(Then(Missed(key, listener), Connect), SocketOpens([key])), MessageArrives(1))
  }

  /** That happens in a run from the start. */
  lemma RevivalRun(key: Key, listener: nat)
    requires IsReading(key)
    ensures Legal(Revived(key, listener))
    ensures var w := Run(Revived(key, listener));
            && key.session in w.scheduler.removed
            && key in w.scheduler.loops && R.Subscribed(w.scheduler, key, 1)
            && OpenAtBothEnds(w) && Agrees(w, key)
  {
    MissedRun(key, listener);
    var start := Missed(key, listener);
    assert Valid(Run(start));
    hide Missed, Legal, Run, Valid, Step, Enabled, Agrees, OpenAtBothEnds, R.Subscribed;
    ReconnectRevivesRemovedSession(Run(start), key);
    assert Enabled(Run(start), Connect) by { AlwaysConnects(Run(start)); }
    RunThen(start, Connect);
    var one := Then(start, Connect);
    RunThen(one, SocketOpens([key]));
    RunThen(Then(one, SocketOpens([key])), MessageArrives(1));
  }

  lemma AlwaysConnects(w: System)
    ensures Enabled(w, Connect)
  {
  }
}
