/** The two ends of the subscription protocol as the objects that run: the store and a server socket. */
module SubscriptionEndpoints {
  import R = ReadingLoops
  import S = ReadingSchedulers
  import P = SubscriptionProtocol

  type Key = P.Key

  /** The browser's store; `posted` is what it has put on its sockets. */
  class SessionsStore {
    var listeners: map<Key, set<nat>>
    var subscribedOnServer: set<Key>
    var socket: P.Socket
    var posted: seq<P.Message>

    ghost function View(): P.Client
      reads this
    {
      P.Client(listeners, subscribedOnServer, socket)
    }

    constructor ()
      ensures View() == P.Initial().client && posted == []
    {
      listeners, subscribedOnServer, socket, posted := map[], {}, P.NoSocket, [];
    }

    /** Posts a message if the socket is open, and says whether it did. */
    method Send(m: P.Message) returns (ok: bool)
      modifies this`posted
      ensures ok == socket.Opened?
      ensures posted == old(posted) + P.Post(View(), m)
    {
      if !socket.Opened? {
        return false;
      }
      posted := posted + [m];
      return true;
    }

    method SubscribeTopic(key: Key, listener: nat)
      modifies this
      ensures P.Sent(View(), posted) == P.SubscribeTopic(old(View()), key, listener).(messages :=
                old(posted) + P.SubscribeTopic(old(View()), key, listener).messages)
    {
      var existing := if key in listeners then listeners[key] else {};
      listeners := listeners[key := existing + {listener}];
      if key !in subscribedOnServer {
        var ok := Send(P.Subscribe(key));
        if ok {
          subscribedOnServer := subscribedOnServer + {key};
        }
      }
    }

    method UnsubscribeTopic(key: Key, listener: nat)
      modifies this
      ensures P.Sent(View(), posted) == P.UnsubscribeTopic(old(View()), key, listener).(messages :=
                old(posted) + P.UnsubscribeTopic(old(View()), key, listener).messages)
    {
      if key !in listeners {
        return;
      }
      var rest := listeners[key] - {listener};
      if rest != {} {
        listeners := listeners[key := rest];
        return;
      }
      listeners := listeners - {key};
      var asked := key in subscribedOnServer;
      subscribedOnServer := subscribedOnServer - {key};
      if asked {
        var _ := Send(P.Unsubscribe(key));
      }
    }

    /** The open handler; `order` is the order in which the map yields its keys. */
    method OnOpen(order: seq<Key>)
      requires socket.Connecting?
      modifies this
      ensures P.Sent(View(), posted) == P.OnOpen(old(View()), order).(messages :=
                old(posted) + P.OnOpen(old(View()), order).messages)
    {
      socket := P.Opened(socket.id);
      for i := 0 to |order|
        invariant socket == P.Opened(old(socket).id) && listeners == old(listeners)
        invariant subscribedOnServer == old(subscribedOnServer) + set k | k in order[..i]
        invariant posted == old(posted) + P.SubscribeEach(order[..i])
      {
        var _ := Send(P.Subscribe(order[i]));
        subscribedOnServer := subscribedOnServer + {order[i]};
        assert order[..i + 1] == order[..i] + [order[i]];
      }
      assert order[..|order|] == order;
    }

    method OnClose()
      modifies this
      ensures View() == P.OnClose(old(View())) && posted == old(posted)
    {
      socket := P.NoSocket;
      subscribedOnServer := {};
    }

    /** A `sessions:removed` frame: one key after the other is dropped. */
    method OnRemoved(session: nat)
      modifies this
      ensures View() == P.OnRemoved(old(View()), session) && posted == old(posted)
    {
      var todo := listeners.Keys;
      ghost var gone: set<Key> := {};
      while todo != {}
        invariant todo <= old(listeners).Keys
        invariant gone == set k: Key | k in old(listeners) && k.session == session && k !in todo
        invariant listeners == old(listeners) - gone
        invariant subscribedOnServer == old(subscribedOnServer) - gone
        invariant socket == old(socket) && posted == old(posted)
        decreases |todo|
      {
        var key :| key in todo;
        todo := todo - {key};
        if key.session == session {
          listeners := listeners - {key};
          subscribedOnServer := subscribedOnServer - {key};
          gone := gone + {key};
        }
      }
      assert gone == set k: Key | k in old(listeners) && k.session == session;
    }
  }

  /** One socket on the server, named `id`, in front of the shared scheduler. */
  class SocketHandler {
    const id: nat
    const scheduler: S.ReadingScheduler
    var subscriptions: set<Key>

    constructor (id: nat, scheduler: S.ReadingScheduler)
      ensures this.id == id && this.scheduler == scheduler && subscriptions == {}
    {
      this.id, this.scheduler, subscriptions := id, scheduler, {};
    }

    /** A message changes the set, and reaches the scheduler only if it does. */
    method OnMessage(m: P.Message)
      requires R.InRange(scheduler.View())
      modifies this, scheduler
      ensures subscriptions == P.Apply(old(subscriptions), m)
      ensures scheduler.View() ==
              if subscriptions == old(subscriptions) || !P.IsReading(m.key) then old(scheduler.View())
              else if m.Subscribe? then R.Subscribe(old(scheduler.View()), m.key, id)
              else R.Unsubscribe(old(scheduler.View()), m.key, id)
    {
      match m
      case Subscribe(key) =>
        if key in subscriptions {
          return;
        }
        subscriptions := subscriptions + {key};
        if P.IsReading(key) {
          scheduler.Subscribe(key, id);
        }
      case Unsubscribe(key) =>
        if key !in subscriptions {
          return;
        }
        subscriptions := subscriptions - {key};
        if P.IsReading(key) {
          scheduler.Unsubscribe(key, id);
        }
    }

    /** Runs on the close and on the error event. */
    method Cleanup()
      requires R.Valid(scheduler.View())
      modifies this, scheduler
      ensures subscriptions == {}
      ensures scheduler.View() == R.RemoveSubscriber(old(scheduler.View()), id)
      ensures R.Valid(scheduler.View()) && forall key :: !R.Subscribed(scheduler.View(), key, id)
    {
      R.SocketGoneValid(scheduler.View(), id);
      scheduler.RemoveSubscriber(id);
      subscriptions := {};
    }
  }
}
