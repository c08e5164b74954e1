/**
 * The session manager as a state machine: open, reconnect, close and connection loss race an `#establish`
 * that gives way at several awaits. The subject is who owns each connection and each error poller.
 */
module SessionLifecycle {
  import opened Common

  datatype Status = Connecting | Connected | Errored

  /** Where an `#establish` stands. */
  datatype Await =
    | Factory
    | Idn(conn: nat)
    | Refine(conn: nat)
    | AbortClose(conn: nat)
    | FailClose(conn: nat)

  /**
   * A session record: `known` is a device kind other than "unknown", `listener` and `poller` stand for
   * the two dispose functions. Beside the record are the establishes under way for it, the connections
   * the factory made for it, those still open, those a close listener is registered on, and the running
   * interval timers that poll its error queue.
   */
  datatype Session = Session(
    status: Status,
    known: bool,
    facade: bool,
    scpi: Option<nat>,
    rings: bool,
    listener: Option<nat>,
    poller: Option<nat>,
    tasks: map<nat, Await>,
    made: set<nat>,
    open: set<nat>,
    watched: set<nat>,
    pollers: set<nat>)

  function Fresh(task: nat): Session {
    Session(Connecting, false, false, None, false, None, None, map[task := Factory], {}, {}, {}, {})
  }

  function DisposeListener(x: Session): Session {
    match x.listener
    case None => x
    case Some(c) => x.(listener := None, watched := x.watched - {c})
  }

  function DisposePoller(x: Session): Session {
    match x.poller
    case None => x
    case Some(p) => x.(poller := None, pollers := x.pollers - {p})
  }

  function Dispose(x: Session): (r: Session)
    ensures r.listener == None && r.poller == None
    ensures r.made == x.made && r.open == x.open && r.watched <= x.watched && r.pollers <= x.pollers
  {
    DisposePoller(DisposeListener(x))
  }

  function CloseConn(x: Session, c: nat): Session {
    x.(open := x.open - {c})
  }

  function Reconnect(x: Session, task: nat): Session {
    if x.status != Errored then x
    else
      var n := Dispose(x.(status := Connecting, known := false, facade := false, scpi := None, rings := false));
      n.(tasks := n.tasks[task := Factory])
  }

  /** What `close` does to a record it has just taken out of the map. */
  function Close(x: Session): Session {
    var n := Dispose(x);
    match n.scpi
    case None => n
    case Some(c) => CloseConn(n, c)
  }

  function UnexpectedClose(x: Session, listed: bool): Session {
    if !listed || x.status != Connected then x
    else Dispose(x.(status := Errored, facade := false, scpi := None, rings := false))
  }

  /** The socket of a connection goes away; a registered listener hears of it at once. */
  function PeerLost(x: Session, listed: bool, c: nat): Session {
    var n := CloseConn(x, c);
    if c in x.watched then UnexpectedClose(n, listed) else n
  }

  /** The tail of the `catch` block: no rings, no listener, no poller, and the establish is over. */
  function FinishFail(x: Session, task: nat): Session {
    var n := Dispose(x.(rings := false));
    n.(tasks := n.tasks - {task})
  }

  /** The `catch` block, up to its await. */
  function Fail(x: Session, task: nat): Session {
    var n := x.(status := Errored);
    match x.scpi
    case None => FinishFail(n, task)
    case Some(c) => CloseConn(n, c).(tasks := n.tasks[task := FailClose(c)])
  }

  /** The `close` awaited by `Fail` has settled. */
  function FailClosed(x: Session, task: nat): Session {
    FinishFail(x.(scpi := None), task)
  }

  /** The session has left the map: close the connection and give up. */
  function Abort(x: Session, task: nat, c: nat): Session {
    CloseConn(x, c).(tasks := x.tasks[task := AbortClose(c)])
  }

  function FactoryResolves(x: Session, listed: bool, task: nat, c: nat): Session {
    var n := x.(made := x.made + {c}, open := x.open + {c});
    if !listed then Abort(n, task, c)
    else n.(scpi := Some(c), rings := true, tasks := n.tasks[task := Idn(c)])
  }

  /** What the registry found for an identity: nothing, or a driver with or without a `refine` step. */
  datatype Match = NoDriver | Driver(refinable: bool)

  /** From a built facade, or none, to a connected session with its close listener and error poller. */
  function Connect(x: Session, task: nat, c: nat, facade: bool, poller: nat): Session {
    var n := x.(status := Connected, facade := facade, listener := Some(c), watched := x.watched + {c},
                tasks := x.tasks - {task});
    if x.known then n.(poller := Some(poller), pollers := n.pollers + {poller}) else n
  }

  /** After `refine`, or without one: make the facade. `create` may throw. */
  function Create(x: Session, listed: bool, task: nat, c: nat, throws: bool, poller: nat): Session {
    if !listed then Abort(x, task, c)
    else if throws then Fail(x, task)
    else Connect(x, task, c, true, poller)
  }

  function IdnAnswered(x: Session, listed: bool, task: nat, c: nat, found: Match, throws: bool, poller: nat): Session {
    if !listed then Abort(x, task, c)
    else
      match found
      case NoDriver => Connect(x.(known := false, facade := false), task, c, false, poller)
      case Driver(refinable) =>
        if refinable then x.(known := true, tasks := x.tasks[task := Refine(c)])
        else Create(x.(known := true), listed, task, c, throws, poller)
  }

  /** What can happen to one session. New ids are fresh: they name nothing yet. */
  datatype Turn =
    | Reconnects(newTask: nat)
    | FactoryOk(task: nat, conn: nat)
    | FactoryFails(task: nat)
    | IdnOk(task: nat, found: Match, throws: bool, newPoller: nat)
    | IdnFails(task: nat)
    | RefineEnds(task: nat, throws: bool, newPoller: nat)
    | AbortCloseEnds(task: nat, ok: bool)
    | FailCloseEnds(task: nat)
    | PeerLoss(conn: nat)

  predicate CanTake(x: Session, e: Turn) {
    match e
    case Reconnects(t) => t !in x.tasks
    case FactoryOk(t, c) => t in x.tasks && x.tasks[t].Factory? && c !in x.made
    case FactoryFails(t) => t in x.tasks && x.tasks[t].Factory?
    case IdnOk(t, _, _, p) => t in x.tasks && x.tasks[t].Idn? && p !in x.pollers
    case IdnFails(t) => t in x.tasks && x.tasks[t].Idn?
    case RefineEnds(t, _, p) => t in x.tasks && x.tasks[t].Refine? && p !in x.pollers
    case AbortCloseEnds(t, _) => t in x.tasks && x.tasks[t].AbortClose?
    case FailCloseEnds(t) => t in x.tasks && x.tasks[t].FailClose?
    case PeerLoss(c) => c in x.open
  }

  /** `listed`: whether the session is in the manager's map. `reconnect` looks only there. */
  function Take(x: Session, listed: bool, e: Turn): Session
    requires CanTake(x, e)
  {
    match e
    case Reconnects(t) => if listed then Reconnect(x, t) else x
    case FactoryOk(t, c) => FactoryResolves(x, listed, t, c)
    case FactoryFails(t) => Fail(x, t)
    case IdnOk(t, found, throws, p) => IdnAnswered(x, listed, t, x.tasks[t].conn, found, throws, p)
    case IdnFails(t) => Fail(x, t)
    case RefineEnds(t, throws, p) => Create(x, listed, t, x.tasks[t].conn, throws, p)
    case AbortCloseEnds(t, ok) => if ok then x.(tasks := x.tasks - {t}) else Fail(x, t)
    case FailCloseEnds(t) => FailClosed(x, t)
    case PeerLoss(c) => PeerLost(x, listed, c)
  }

  // ---------------------------------------------------------------------------
  // The invariant of one session
  // ---------------------------------------------------------------------------

  function Only<T>(o: Option<T>): set<T> {
    match o
    case None => {}
    case Some(v) => {v}
  }

  /** A failed establish of this session is still closing its connection. */
  predicate StillClosing(x: Session) {
    exists t | t in x.tasks :: x.tasks[t].FailClose?
  }

  /** What a waiting establish knows about its session. */
  predicate AwaitFits(x: Session, listed: bool, at: Await) {
    && x.listener == None && x.poller == None && !x.facade
    && match at
       case Factory => x.status == Connecting && x.scpi == None
       case Idn(c) => x.status == Connecting && x.scpi == Some(c)
       case Refine(c) => x.status == Connecting && x.scpi == Some(c) && x.known
       case AbortClose(c) => !listed
       case FailClose(c) => x.status == Errored && x.scpi == Some(c)
  }

  /** What the status of a session in the map says about the rest of its record. */
  predicate StatusFits(x: Session) {
    match x.status
    case Connecting => x.tasks != map[] && (x.rings <==> x.scpi.Some?)
    case Connected =>
      && x.tasks == map[] && x.scpi.Some? && x.rings && x.listener == x.scpi
      && (x.poller.Some? <==> x.known) && (x.facade <==> x.known)
    case Errored =>
      && x.listener == None && x.poller == None && !x.facade
      && (x.tasks == map[] ==> x.scpi == None && !x.rings)
  }

  predicate Fits(x: Session, listed: bool) {
    && (forall t, u | t in x.tasks && u in x.tasks :: t == u)
    && (forall t | t in x.tasks :: AwaitFits(x, listed, x.tasks[t]))
    && Only(x.scpi) <= x.made
    && x.open <= (if listed && x.status != Errored then Only(x.scpi) else {})
    && x.watched == Only(x.listener)
    && x.pollers == Only(x.poller)
    && (if listed then StatusFits(x) else x.listener == None && x.poller == None)
  }

  /**
   * The condition on `reconnect` is exact: for any session in the map that fits, reconnecting keeps it fit
   * if and only if no failed establish of it is still closing its connection.
   */
  lemma ReconnectFits(x: Session, t: nat)
    requires Fits(x, true) && t !in x.tasks
    ensures Fits(Reconnect(x, t), true) <==> !StillClosing(x)
  {
    if StillClosing(x) {
      var u :| u in x.tasks && x.tasks[u].FailClose?;
      assert AwaitFits(x, true, x.tasks[u]);
      var n := Reconnect(x, t);
      assert t in n.tasks && u in n.tasks && t != u;
    }
  }

  lemma FactoryFits(x: Session, listed: bool, t: nat, c: nat)
    requires Fits(x, listed) && t in x.tasks && x.tasks[t].Factory? && c !in x.made
    ensures Fits(FactoryResolves(x, listed, t, c), listed)
  {
    assert AwaitFits(x, listed, x.tasks[t]);
  }

  lemma AbortFits(x: Session, t: nat, c: nat)
    requires Fits(x, false) && t in x.tasks
    ensures Fits(Abort(x, t, c), false)
  {
    assert AwaitFits(x, false, x.tasks[t]);
  }

  lemma FailFits(x: Session, listed: bool, t: nat)
    requires Fits(x, listed) && t in x.tasks && !x.tasks[t].FailClose?
    ensures Fits(Fail(x, t), listed)
  {
    assert AwaitFits(x, listed, x.tasks[t]);
    assert (x.tasks - {t}) == map[];
  }

  lemma FailClosedFits(x: Session, listed: bool, t: nat)
    requires Fits(x, listed) && t in x.tasks && x.tasks[t].FailClose?
    ensures Fits(FailClosed(x, t), listed)
  {
    assert AwaitFits(x, listed, x.tasks[t]);
    assert (x.tasks - {t}) == map[];
  }

  /** The step that makes a session connected; `kept` differs from `x` at most in its kind. */
  lemma ConnectFits(x: Session, known: bool, t: nat, c: nat, p: nat)
    requires Fits(x, true) && t in x.tasks && p !in x.pollers
    requires x.tasks[t] == Idn(c) || x.tasks[t] == Refine(c)
    ensures Fits(Connect(x.(known := known), t, c, known, p), true)
  {
    assert AwaitFits(x, true, x.tasks[t]);
    assert (x.tasks - {t}) == map[];
  }

  lemma CreateFits(x: Session, listed: bool, t: nat, c: nat, throws: bool, p: nat)
    requires Fits(x, listed) && t in x.tasks && p !in x.pollers
    requires x.tasks[t] == Idn(c) || x.tasks[t] == Refine(c)
    ensures Fits(Create(x.(known := true), listed, t, c, throws, p), listed)
  {
    assert AwaitFits(x, listed, x.tasks[t]);
    var k := x.(known := true);
    if !listed {
      assert Fits(k, listed);
      AbortFits(k, t, c);
    } else if throws {
      assert Fits(k, listed);
      FailFits(k, listed, t);
    } else {
      ConnectFits(x, true, t, c, p);
    }
  }

  lemma IdnFits(x: Session, listed: bool, t: nat, c: nat, found: Match, throws: bool, p: nat)
    requires Fits(x, listed) && t in x.tasks && x.tasks[t] == Idn(c) && p !in x.pollers
    ensures Fits(IdnAnswered(x, listed, t, c, found, throws, p), listed)
  {
    assert AwaitFits(x, listed, x.tasks[t]);
    if !listed {
      AbortFits(x, t, c);
    } else {
      match found
      case NoDriver => ConnectFits(x, false, t, c, p);
      case Driver(refinable) =>
        if refinable {
          assert x.tasks[t := Refine(c)].Keys == x.tasks.Keys;
        } else {
          CreateFits(x, listed, t, c, throws, p);
        }
    }
  }

  lemma PeerLostFits(x: Session, listed: bool, c: nat)
    requires Fits(x, listed) && c in x.open
    ensures Fits(PeerLost(x, listed, c), listed)
  {
  }

  lemma AbortedFits(x: Session, listed: bool, t: nat)
    requires Fits(x, listed) && t in x.tasks && x.tasks[t].AbortClose?
    ensures Fits(x.(tasks := x.tasks - {t}), listed)
  {
    assert AwaitFits(x, listed, x.tasks[t]);
  }

  /** Every step keeps it, unless `reconnect` comes while a failed establish is still closing its connection. */
  lemma TakeFits(x: Session, listed: bool, e: Turn)
    requires Fits(x, listed) && CanTake(x, e)
    requires listed && e.Reconnects? ==> !StillClosing(x)
    ensures Fits(Take(x, listed, e), listed)
  {
    match e
    case Reconnects(t) => if listed { ReconnectFits(x, t); }
    case FactoryOk(t, c) => FactoryFits(x, listed, t, c);
    case FactoryFails(t) => FailFits(x, listed, t);
    case IdnOk(t, found, throws, p) => IdnFits(x, listed, t, x.tasks[t].conn, found, throws, p);
    case IdnFails(t) => FailFits(x, listed, t);
    case RefineEnds(t, throws, p) =>
      assert AwaitFits(x, listed, x.tasks[t]);
      assert x.(known := true) == x;
      CreateFits(x, listed, t, x.tasks[t].conn, throws, p);
    case AbortCloseEnds(t, ok) => if ok { AbortedFits(x, listed, t); } else { FailFits(x, listed, t); }
    case FailCloseEnds(t) => FailClosedFits(x, listed, t);
    case PeerLoss(c) => PeerLostFits(x, listed, c);
  }

  lemma CloseFits(x: Session)
    requires Fits(x, true)
    ensures Fits(Close(x), false)
  {
  }

  // ---------------------------------------------------------------------------
  // The manager: all sessions, and every run
  // ---------------------------------------------------------------------------

  /** `sessions` holds every record ever made, `listed` the ids in the manager's map. */
  datatype Manager = Manager(max: nat, listed: set<nat>, sessions: map<nat, Session>)

  datatype Event =
    | Opens(session: nat, newTask: nat)
    | Closes(session: nat)
    | Turns(session: nat, turn: Turn)

  function Initial(max: nat): Manager {
    Manager(max, {}, map[])
  }

  /** No session has a connection or poller of this id yet. */
  predicate FreshIds(m: Manager, e: Turn) {
    match e
    case FactoryOk(_, c) => forall sid | sid in m.sessions :: c !in m.sessions[sid].made
    case IdnOk(_, _, _, p) => forall sid | sid in m.sessions :: p !in m.sessions[sid].pollers
    case RefineEnds(_, _, p) => forall sid | sid in m.sessions :: p !in m.sessions[sid].pollers
    case _ => true
  }

  /**
   * What can happen next. The one condition on callers is that `reconnect` does not come in the window
   * where a failed establish of the session is still closing its connection.
   */
  predicate Enabled(m: Manager, e: Event) {
    match e
    case Opens(sid, _) => sid !in m.sessions
    case Closes(_) => true
    case Turns(sid, turn) =>
      && sid in m.sessions && CanTake(m.sessions[sid], turn) && FreshIds(m, turn)
      && (sid in m.listed && turn.Reconnects? ==> !StillClosing(m.sessions[sid]))
  }

  /** `open` is refused at the limit; `close` of an id that is not in the map does nothing. */
  function Step(m: Manager, e: Event): Manager
    requires Enabled(m, e)
  {
    match e
    case Opens(sid, t) =>
      if |m.listed| >= m.max then m
      else m.(listed := m.listed + {sid}, sessions := m.sessions[sid := Fresh(t)])
    case Closes(sid) =>
      if sid !in m.listed || sid !in m.sessions then m
      else m.(listed := m.listed - {sid}, sessions := m.sessions[sid := Close(m.sessions[sid])])
    case Turns(sid, turn) =>
      m.(sessions := m.sessions[sid := Take(m.sessions[sid], sid in m.listed, turn)])
  }

  /** No connection or poller serves two sessions. */
  ghost predicate Apart(m: Manager) {
    forall a, b | a in m.sessions && b in m.sessions && a != b ::
      m.sessions[a].made !! m.sessions[b].made && m.sessions[a].pollers !! m.sessions[b].pollers
  }

  ghost predicate Valid(m: Manager) {
    && m.listed <= m.sessions.Keys
    && |m.listed| <= m.max
    && (forall sid | sid in m.sessions :: Fits(m.sessions[sid], sid in m.listed))
    && Apart(m)
  }

  /** A turn adds to a session's connections and pollers at most the fresh ids it brings. */
  lemma TakeGrows(x: Session, listed: bool, e: Turn)
    requires CanTake(x, e)
    ensures Take(x, listed, e).made <= x.made + (if e.FactoryOk? then {e.conn} else {})
    ensures Take(x, listed, e).pollers <= x.pollers + (if e.IdnOk? || e.RefineEnds? then {e.newPoller} else {})
  {
    hide Dispose;
    match e
    case Reconnects(t) =>
    case FactoryOk(t, c) =>
    case FactoryFails(t) =>
    case IdnOk(t, found, throws, p) =>
    case IdnFails(t) =>
    case RefineEnds(t, throws, p) =>
    case AbortCloseEnds(t, ok) =>
    case FailCloseEnds(t) =>
    case PeerLoss(c) =>
  }

  lemma FreshFits(t: nat)
    ensures Fits(Fresh(t), true) && Fresh(t).made == {} && Fresh(t).pollers == {}
  {
    assert t in Fresh(t).tasks;
  }

  lemma CloseShrinks(x: Session)
    ensures Close(x).made == x.made && Close(x).pollers <= x.pollers
  {
    hide Dispose;
  }

  /** One record changes or joins; the rest stay as they are. */
  lemma OneRecord(m: Manager, n: Manager, sid: nat, x: Session)
    requires Valid(m) && n.sessions == m.sessions[sid := x] && n.max == m.max && |n.listed| <= n.max
    requires forall s | s != sid :: s in n.listed <==> s in m.listed
    requires Fits(x, sid in n.listed)
    requires forall s | s in m.sessions && s != sid ::
               m.sessions[s].made !! x.made && m.sessions[s].pollers !! x.pollers
    ensures Valid(n)
  {
    hide Fits;
  }

  lemma TurnValid(m: Manager, sid: nat, turn: Turn)
    requires Valid(m) && Enabled(m, Turns(sid, turn))
    ensures Valid(Step(m, Turns(sid, turn)))
  {
    hide Fits;
    hide Take;
    hide CanTake;
    var x := m.sessions[sid];
    var listed := sid in m.listed;
    TakeFits(x, listed, turn);
    TakeGrows(x, listed, turn);
    forall s | s in m.sessions && s != sid
      ensures m.sessions[s].made !! Take(x, listed, turn).made && m.sessions[s].pollers !! Take(x, listed, turn).pollers
    {
      assert m.sessions[s].made !! x.made && m.sessions[s].pollers !! x.pollers;
    }
    OneRecord(m, Step(m, Turns(sid, turn)), sid, Take(x, listed, turn));
  }

  /** What the manager's `reconnect` does to a record in the map keeps all records sound exactly under the condition. */
  lemma ReconnectValid(m: Manager, sid: nat, t: nat)
    requires Valid(m) && sid in m.listed && t !in m.sessions[sid].tasks
    ensures Valid(m.(sessions := m.sessions[sid := Reconnect(m.sessions[sid], t)])) <==> !StillClosing(m.sessions[sid])
  {
    hide Fits, StillClosing, Reconnect;
    var x := m.sessions[sid];
    var n := m.(sessions := m.sessions[sid := Reconnect(x, t)]);
    ReconnectFits(x, t);
    TakeGrows(x, true, Reconnects(t));
    if !StillClosing(x) {
      OneRecord(m, n, sid, Reconnect(x, t));
    } else {
      assert n.sessions[sid] == Reconnect(x, t) && sid in n.listed;
    }
  }

  lemma StepValid(m: Manager, e: Event)
    requires Valid(m) && Enabled(m, e)
    ensures Valid(Step(m, e))
  {
    hide Fits;
    hide Take;
    hide Close;
    match e
    case Opens(sid, t) =>
      if |m.listed| < m.max {
        FreshFits(t);
        OneRecord(m, Step(m, e), sid, Fresh(t));
      }
    case Closes(sid) =>
      if sid in m.listed {
        CloseFits(m.sessions[sid]);
        CloseShrinks(m.sessions[sid]);
        OneRecord(m, Step(m, e), sid, Close(m.sessions[sid]));
      }
    case Turns(sid, turn) => TurnValid(m, sid, turn);
  }

  ghost predicate Legal(trace: Trace<Event>, max: nat)
    decreases trace, 0
  {
    trace.Then? ==> Legal(trace.before, max) && Enabled(Run(trace.before, max), trace.event)
  }

  ghost function Run(trace: Trace<Event>, max: nat): (m: Manager)
    requires Legal(trace, max)
    ensures Valid(m)
    decreases trace, 1
  {
    match trace
    case Start => Initial(max)
    case Then(before, event) =>
      StepValid(Run(before, max), event);
      Step(Run(before, max), event)
  }

  /**
   * Connection ownership, in every run: the map keeps to its limit; no session has two establishes under
   * way; an open connection belongs to a session in the map, is that session's `scpi`, and is no other
   * session's; a session in the map is connecting only while an establish is under way, and connected only
   * with a connection, rings, a registered close listener and, if identified, a facade; and the error pollers
   * running for a session
   * are exactly one if it is in the map, connected and identified, and none otherwise.
   */
  lemma ConnectionOwnership(trace: Trace<Event>, max: nat, sid: nat, c: nat)
    requires Legal(trace, max)
    ensures |Run(trace, max).listed| <= max
    ensures sid in Run(trace, max).sessions ==>
            var m := Run(trace, max); var x := m.sessions[sid]; var listed := sid in m.listed;
            && |x.tasks| <= 1
            && (c in x.open ==> listed && x.scpi == Some(c) &&
                                forall other | other in m.sessions && m.sessions[other].scpi == Some(c) :: other == sid)
            && (listed && x.status == Connecting ==> |x.tasks| == 1)
            && (listed && x.status == Connected ==>
                  x.tasks == map[] && x.scpi.Some? && x.rings && x.watched == {x.scpi.value})
            && (listed && x.status == Connected ==> (x.facade <==> x.known))
            && |x.pollers| == if listed && x.status == Connected && x.known then 1 else 0
  {
    var m := Run(trace, max);
    RunKeepsMax(trace, max);
    if sid in m.sessions {
      Owner(m.sessions[sid], sid in m.listed, c);
      if c in m.sessions[sid].open {
        OwnedBy(m, sid, c);
      }
    }
  }

  lemma OwnedBy(m: Manager, sid: nat, c: nat)
    requires Valid(m) && sid in m.sessions && c in m.sessions[sid].open
    ensures sid in m.listed && m.sessions[sid].scpi == Some(c)
    ensures forall other | other in m.sessions && m.sessions[other].scpi == Some(c) :: other == sid
  {
    Owner(m.sessions[sid], sid in m.listed, c);
    forall other | other in m.sessions && m.sessions[other].scpi == Some(c) ensures other == sid {
      Owner(m.sessions[other], other in m.listed, c);
    }
  }

  lemma Owner(x: Session, listed: bool, c: nat)
    requires Fits(x, listed)
    ensures |x.tasks| <= 1 && (x.tasks != map[] ==> |x.tasks| == 1)
    ensures c in x.open ==> listed && x.scpi == Some(c)
    ensures x.scpi == Some(c) ==> c in x.made
    ensures listed && x.status == Connecting ==> |x.tasks| == 1
    ensures listed && x.status == Connected ==>
              x.tasks == map[] && x.scpi.Some? && x.rings && x.watched == {x.scpi.value}
    ensures listed && x.status == Connected ==> (x.facade <==> x.known)
    ensures |x.pollers| == if listed && x.status == Connected && x.known then 1 else 0
  {
    if x.tasks != map[] {
      var t :| t in x.tasks;
      assert x.tasks.Keys == {t};
      assert |x.tasks| == |x.tasks.Keys|;
      assert AwaitFits(x, listed, x.tasks[t]);
    }
  }

  lemma RunKeepsMax(trace: Trace<Event>, max: nat)
    requires Legal(trace, max)
    ensures Run(trace, max).max == max
  {
    match trace
    case Start =>
    case Then(before, _) => RunKeepsMax(before, max);
  }

  // ---------------------------------------------------------------------------
  // What the code does not provide
  // ---------------------------------------------------------------------------

  /**
   * Why the condition on `reconnect` is there: when the old establish finishes closing, it takes away what
   * the new one has set up. The session ends up connected without a connection, and the new connection
   * stays open with no session to close it.
   */
  lemma OverlapLeaks(x: Session, closing: nat, t: nat, c: nat)
    requires Fits(x, true) && closing in x.tasks && x.tasks[closing].FailClose? && t !in x.tasks && c !in x.made
    ensures var n1 := Reconnect(x, t);
            && CanTake(n1, FactoryOk(t, c))
            && var n2 := Take(n1, true, FactoryOk(t, c));
            && CanTake(n2, IdnOk(t, NoDriver, false, 0))
            && var n3 := Take(n2, true, IdnOk(t, NoDriver, false, 0));
            && CanTake(n3, FailCloseEnds(closing))
            && var n4 := Take(n3, true, FailCloseEnds(closing));
            n4.status == Connected && n4.scpi == None && c in n4.open && c in Close(n4).open
  {
    assert AwaitFits(x, true, x.tasks[closing]);
  }

  /** The connection of a session in the map that is not in error is still open. */
  predicate Live(x: Session, listed: bool) {
    listed && x.status != Errored && x.scpi.Some? ==> x.scpi.value in x.open
  }

  /**
   * A turn leaves a session that is not in error without an open connection exactly when the connection is
   * lost before the close listener is registered, that is, while the establish still awaits.
   */
  lemma LostBeforeListening(x: Session, listed: bool, e: Turn)
    requires Fits(x, listed) && CanTake(x, e) && Live(x, listed)
    ensures Live(Take(x, listed, e), listed) <==> !(e.PeerLoss? && e.conn !in x.watched)
  {
    match e
    case Reconnects(t) =>
    case FactoryOk(t, c) =>
    case FactoryFails(t) =>
    case IdnOk(t, found, throws, p) => assert AwaitFits(x, listed, x.tasks[t]);
    case IdnFails(t) =>
    case RefineEnds(t, throws, p) => assert AwaitFits(x, listed, x.tasks[t]);
    case AbortCloseEnds(t, ok) => assert AwaitFits(x, listed, x.tasks[t]);
    case FailCloseEnds(t) => assert AwaitFits(x, listed, x.tasks[t]);
    case PeerLoss(c) =>
  }

  /** A connected session in the map has an open connection. */
  predicate LiveWhenConnected(x: Session, listed: bool) {
    listed && x.status == Connected ==> x.scpi.Some? && x.scpi.value in x.open
  }

  /** With this turn the establish comes to its end and the session becomes connected. */
  predicate Connects(listed: bool, e: Turn) {
    && listed
    && match e
       case IdnOk(_, found, throws, _) => found.NoDriver? || (!found.refinable && !throws)
       case RefineEnds(_, throws, _) => !throws
       case _ => false
  }

  /**
   * A turn leaves a connected session without an open connection exactly when the establish connects it to a
   * connection that has been lost by then. Nothing that happens later does.
   */
  lemma ConnectedButLost(x: Session, listed: bool, e: Turn)
    requires Fits(x, listed) && CanTake(x, e) && LiveWhenConnected(x, listed)
    ensures LiveWhenConnected(Take(x, listed, e), listed) <==>
            !(Connects(listed, e) && x.tasks[e.task].conn !in x.open)
  {
    match e
    case Reconnects(t) =>
    case FactoryOk(t, c) => assert AwaitFits(x, listed, x.tasks[t]);
    case FactoryFails(t) =>
    case IdnOk(t, found, throws, p) => assert AwaitFits(x, listed, x.tasks[t]);
    case IdnFails(t) =>
    case RefineEnds(t, throws, p) => assert AwaitFits(x, listed, x.tasks[t]);
    case AbortCloseEnds(t, ok) => assert AwaitFits(x, listed, x.tasks[t]);
    case FailCloseEnds(t) => assert AwaitFits(x, listed, x.tasks[t]);
    case PeerLoss(c) =>
  }

  /** If that happens during `refine`, whose own errors are swallowed, the session becomes connected all the same. */
  lemma LostDuringRefine(x: Session, t: nat, p: nat)
    requires Fits(x, true) && t in x.tasks && x.tasks[t].Refine? && Live(x, true) && p !in x.pollers
    ensures var c := x.tasks[t].conn;
            && CanTake(x, PeerLoss(c))
            && var n1 := Take(x, true, PeerLoss(c));
            && CanTake(n1, RefineEnds(t, false, p))
            && var n2 := Take(n1, true, RefineEnds(t, false, p));
            n2.status == Connected && n2.scpi == Some(c) && c !in n2.open
  {
    assert AwaitFits(x, true, x.tasks[t]);
  }

  /** And it stays so: no turn changes it, not even `reconnect`. Only `close` is left. */
  lemma DeadButConnected(x: Session, e: Turn)
    requires Fits(x, true) && x.status == Connected && !Live(x, true) && CanTake(x, e)
    ensures Take(x, true, e) == x
  {
  }
}
