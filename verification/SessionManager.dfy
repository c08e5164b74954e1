/**
 * The session manager and its mutable session records as the objects the server runs. Whatever method is
 * called, and whichever `#establish` goes on, the objects do what the state machine of `SessionLifecycle`
 * does and keep its invariant.
 */
module SessionManagers {
  import opened Common
  import opened SessionLifecycle
  import SessionProgress

  /** A session record, with the continuations of the establishes that work on it. */
  class InternalSession {
    const id: nat
    var status: Status
    var known: bool
    var facade: bool
    var scpi: Option<nat>
    var rings: bool
    var disposeCloseListener: Option<nat>
    var disposeErrorPoller: Option<nat>
    var tasks: map<nat, Await>
    var made: set<nat>
    var openConns: set<nat>
    var watched: set<nat>
    var pollers: set<nat>

    ghost function View(): Session
      reads this
    {
      Session(status, known, facade, scpi, rings, disposeCloseListener, disposeErrorPoller,
              tasks, made, openConns, watched, pollers)
    }

    constructor (sid: nat, task: nat)
      ensures id == sid && View() == Fresh(task)
    {
      id := sid;
      status, known, facade, scpi, rings := Connecting, false, false, None, false;
      disposeCloseListener, disposeErrorPoller := None, None;
      tasks, made, openConns, watched, pollers := map[task := Factory], {}, {}, {}, {};
    }

    method Dispose()
      modifies this
      ensures View() == SessionLifecycle.Dispose(old(View()))
    {
      if disposeCloseListener.Some? {
        watched := watched - {disposeCloseListener.value};
        disposeCloseListener := None;
      }
      if disposeErrorPoller.Some? {
        pollers := pollers - {disposeErrorPoller.value};
        disposeErrorPoller := None;
      }
    }

    method Reconnect(task: nat)
      modifies this
      ensures View() == SessionLifecycle.Reconnect(old(View()), task)
      ensures if old(status) != Errored then View() == old(View())
              else status == Connecting && scpi == None && !rings && tasks == old(tasks)[task := Factory]
    {
      if status == Connecting {
        return;
      }
      if status == Connected {
        return;
      }
      status, known, facade, scpi, rings := Connecting, false, false, None, false;
      Dispose();
      tasks := tasks[task := Factory];
    }

    method Close()
      modifies this
      ensures View() == SessionLifecycle.Close(old(View()))
    {
      Dispose();
      if scpi.Some? {
        openConns := openConns - {scpi.value};
      }
    }

    /** The `catch` block of `#establish`, up to its await. */
    method Fail(task: nat)
      modifies this
      ensures View() == SessionLifecycle.Fail(old(View()), task)
    {
      status := Errored;
      if scpi.Some? {
        openConns := openConns - {scpi.value};
        tasks := tasks[task := FailClose(scpi.value)];
      } else {
        FinishFail(task);
      }
    }

    method FinishFail(task: nat)
      modifies this
      ensures View() == SessionLifecycle.FinishFail(old(View()), task)
    {
      rings := false;
      Dispose();
      tasks := tasks - {task};
    }

    method OnFailClosed(task: nat)
      modifies this
      ensures View() == FailClosed(old(View()), task)
    {
      scpi := None;
      FinishFail(task);
    }

    method Abort(task: nat, c: nat)
      modifies this
      ensures View() == SessionLifecycle.Abort(old(View()), task, c)
    {
      openConns := openConns - {c};
      tasks := tasks[task := AbortClose(c)];
    }

    method Connect(task: nat, c: nat, built: bool, poller: nat)
      modifies this
      ensures View() == SessionLifecycle.Connect(old(View()), task, c, built, poller)
    {
      facade := built;
      status := Connected;
      disposeCloseListener, watched := Some(c), watched + {c};
      if known {
        disposeErrorPoller, pollers := Some(poller), pollers + {poller};
      }
      tasks := tasks - {task};
    }
  }

  /** What `reconnect` is to make of a record in the map. */
  ghost predicate Restarted(was: Session, now: Session, task: nat) {
    if was.status != Errored then now == was
    else StillClosing(was) || SessionProgress.Starting(now, task)
  }

  lemma Restarts(x: Session, task: nat)
    requires Fits(x, true) && task !in x.tasks
    ensures Restarted(x, SessionLifecycle.Reconnect(x, task), task)
  {
    SessionProgress.ReconnectStarts(x, true, task);
  }

  /** `records` are all the session records ever made, `sessions` the manager's map. */
  class SessionManager {
    const maxSessions: nat
    var sessions: map<nat, InternalSession>
    ghost var records: map<nat, InternalSession>

    ghost predicate Linked()
      reads this
    {
      && (forall sid | sid in sessions :: sid in records && records[sid] == sessions[sid])
      && (forall sid | sid in records :: records[sid].id == sid)
    }

    ghost function View(): Manager
      reads this, records.Values
    {
      Manager(maxSessions, sessions.Keys, map sid | sid in records :: records[sid].View())
    }

    ghost predicate Valid()
      reads this, records.Values
    {
      Linked() && SessionLifecycle.Valid(View())
    }

    ghost predicate Knows(session: InternalSession)
      reads this
    {
      session.id in records && records[session.id] == session
    }

    constructor (max: nat)
      ensures Valid() && View() == Initial(max)
    {
      maxSessions, sessions, records := max, map[], map[];
    }

    /** Who owns an open connection, read off the objects. */
    lemma Ownership(sid: nat, c: nat)
      requires Valid() && sid in records && c in records[sid].openConns
      ensures sid in sessions && sessions[sid].scpi == Some(c)
      ensures forall other | other in records && records[other].scpi == Some(c) :: other == sid
    {
      hide SessionLifecycle.Valid;
      var m := View();
      OwnedBy(m, sid, c);
      forall other | other in records && records[other].scpi == Some(c) ensures other == sid {
        assert m.sessions[other].scpi == Some(c);
      }
    }

    /** One record has changed, and nothing else. */
    twostate lemma OneChanged(session: InternalSession)
      requires old(Linked() && Knows(session)) && unchanged(this)
      requires forall sid | sid in records && sid != session.id :: unchanged(records[sid])
      ensures Linked() && Knows(session)
      ensures View() == old(View()).(sessions := old(View()).sessions[session.id := session.View()])
    {
    }

    method Open(sid: nat, task: nat) returns (ok: bool)
      requires Valid() && sid !in records
      modifies this
      ensures Valid() && View() == Step(old(View()), Opens(sid, task))
      ensures ok <==> |old(sessions)| < maxSessions
    {
      SessionLifecycle.StepValid(View(), Opens(sid, task));
      hide SessionLifecycle.Valid;
      ok := Admit(sid, task);
    }

    method Admit(sid: nat, task: nat) returns (ok: bool)
      requires Linked() && sid !in records
      modifies this
      ensures Linked() && View() == Step(old(View()), Opens(sid, task))
      ensures ok <==> |old(sessions)| < maxSessions
    {
      hide Fresh, InternalSession.View;
      assert |sessions| == |sessions.Keys|;
      ok := |sessions| < maxSessions;
      if ok {
        var internal := new InternalSession(sid, task);
        Insert(internal);
      }
    }

    method Insert(internal: InternalSession)
      requires Linked() && internal.id !in records
      modifies this
      ensures Linked() && sessions == old(sessions)[internal.id := internal]
      ensures View() == old(View()).(listed := old(View()).listed + {internal.id},
                                     sessions := old(View()).sessions[internal.id := internal.View()])
    {
      hide InternalSession.View;
      sessions := sessions[internal.id := internal];
      records := records[internal.id := internal];
    }

    /**
     * An id not in the map is ignored, and a record that is not in error. A record in error starts again; it stays
     * sound exactly if no failed establish of it is still closing.
     */
    method Reconnect(sid: nat, task: nat)
      requires Valid() && (sid in sessions ==> task !in sessions[sid].tasks)
      modifies records.Values
      ensures Linked() && unchanged(this)
      ensures View() == if sid !in sessions then old(View())
                        else old(View()).(sessions := old(View()).sessions[
                               sid := SessionLifecycle.Reconnect(old(View()).sessions[sid], task)])
      ensures Valid() <==> (sid in sessions ==> !StillClosing(old(View()).sessions[sid]))
      ensures sid in sessions ==> Restarted(old(View()).sessions[sid], View().sessions[sid], task)
    {
      if sid in sessions {
        Restarts(View().sessions[sid], task);
      }
      hide SessionLifecycle.Reconnect, Restarted, SessionLifecycle.Valid, InternalSession.View;
      Renew(sid, task);
    }

    method Renew(sid: nat, task: nat)
      requires Valid() && (sid in sessions ==> task !in sessions[sid].tasks)
      modifies records.Values
      ensures Linked() && unchanged(this)
      ensures View() == if sid !in sessions then old(View())
                        else old(View()).(sessions := old(View()).sessions[
                               sid := SessionLifecycle.Reconnect(old(View()).sessions[sid], task)])
      ensures Valid() <==> (sid in sessions ==> !StillClosing(old(View()).sessions[sid]))
    {
      if sid !in sessions {
        return;
      }
      ReconnectValid(View(), sid, task);
      hide SessionLifecycle.Valid;
      sessions[sid].Reconnect(task);
      OneChanged(sessions[sid]);
    }

    method Close(sid: nat)
      requires Valid()
      modifies this, records.Values
      ensures Valid() && View() == Step(old(View()), Closes(sid))
    {
      SessionLifecycle.StepValid(View(), Closes(sid));
      hide SessionLifecycle.Valid;
      Detach(sid);
    }

    /** Out of the map first, so that an establish under way will abort; then its connection is closed. */
    method Detach(sid: nat)
      requires Linked()
      modifies this, records.Values
      ensures Linked() && View() == Step(old(View()), Closes(sid))
    {
      hide SessionLifecycle.Close, InternalSession.View;
      if sid !in sessions {
        return;
      }
      var session := sessions[sid];
      sessions := sessions - {sid};
      session.Close();
    }

    method HandleUnexpectedClose(session: InternalSession)
      modifies session
      ensures session.View() == UnexpectedClose(old(session.View()), session.id in sessions)
    {
      if session.id !in sessions {
        return;
      }
      if session.status != Connected {
        return;
      }
      session.status, session.facade, session.scpi, session.rings := Errored, false, None, false;
      session.Dispose();
    }

    method OnPeerLost(session: InternalSession, c: nat)
      modifies session
      ensures session.View() == PeerLost(old(session.View()), session.id in sessions, c)
    {
      session.openConns := session.openConns - {c};
      if c in session.watched {
        HandleUnexpectedClose(session);
      }
    }

    method OnFactoryResolved(session: InternalSession, task: nat, c: nat)
      modifies session
      ensures session.View() == FactoryResolves(old(session.View()), session.id in sessions, task, c)
    {
      session.made, session.openConns := session.made + {c}, session.openConns + {c};
      if session.id !in sessions {
        session.Abort(task, c);
        return;
      }
      session.scpi, session.rings := Some(c), true;
      session.tasks := session.tasks[task := Idn(c)];
    }

    method OnIdn(session: InternalSession, task: nat, c: nat, found: Match, throws: bool, poller: nat)
      modifies session
      ensures session.View() == IdnAnswered(old(session.View()), session.id in sessions, task, c, found, throws, poller)
    {
      if session.id !in sessions {
        session.Abort(task, c);
        return;
      }
      match found
      case NoDriver =>
        session.known, session.facade := false, false;
        session.Connect(task, c, false, poller);
      case Driver(refinable) =>
        session.known := true;
        if refinable {
          session.tasks := session.tasks[task := Refine(c)];
        } else {
          OnRefined(session, task, c, throws, poller);
        }
    }

    method OnRefined(session: InternalSession, task: nat, c: nat, throws: bool, poller: nat)
      modifies session
      ensures session.View() == Create(old(session.View()), session.id in sessions, task, c, throws, poller)
    {
      if session.id !in sessions {
        session.Abort(task, c);
      } else if throws {
        session.Fail(task);
      } else {
        session.Connect(task, c, true, poller);
      }
    }

    /** An establish that aborted goes on when its connection has closed, or failed to. */
    method OnAbortClosed(session: InternalSession, task: nat, ok: bool)
      modifies session
      ensures session.View() == if ok then old(session.View()).(tasks := old(session.View()).tasks - {task})
                                else SessionLifecycle.Fail(old(session.View()), task)
    {
      if ok {
        session.tasks := session.tasks - {task};
      } else {
        session.Fail(task);
      }
    }

    /** The next thing to happen to a session, in the map or out of it, dispatched to its handler. */
    method Turn(session: InternalSession, turn: Turn)
      requires Valid() && Knows(session) && Enabled(View(), Turns(session.id, turn))
      modifies session
      ensures Valid() && View() == Step(old(View()), Turns(session.id, turn))
    {
      SessionLifecycle.StepValid(View(), Turns(session.id, turn));
      hide SessionLifecycle.Valid;
      Dispatch(session, turn);
      OneChanged(session);
    }

    method Dispatch(session: InternalSession, turn: Turn)
      requires CanTake(session.View(), turn)
      modifies session
      ensures session.View() == Take(old(session.View()), session.id in sessions, turn)
    {
      match turn
      case Reconnects(t) =>
        if session.id in sessions {
          session.Reconnect(t);
        }
      case FactoryOk(t, c) => OnFactoryResolved(session, t, c);
      case FactoryFails(t) => session.Fail(t);
      case IdnOk(t, found, throws, p) => OnIdn(session, t, session.tasks[t].conn, found, throws, p);
      case IdnFails(t) => session.Fail(t);
      case RefineEnds(t, throws, p) => OnRefined(session, t, session.tasks[t].conn, throws, p);
      case AbortCloseEnds(t, ok) => OnAbortClosed(session, t, ok);
      case FailCloseEnds(t) => session.OnFailClosed(t);
      case PeerLoss(c) => OnPeerLost(session, c);
    }
  }
}
