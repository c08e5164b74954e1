/** What a session comes to: connecting, connected, in error, closed, and back again. */
module SessionProgress {
  import opened Common
  import opened SessionLifecycle

  /** A session at the start of an establish: connecting, with nothing but that establish under way. */
  predicate Starting(x: Session, t: nat) {
    && x.status == Connecting && x.tasks == map[t := Factory]
    && x.scpi == None && !x.rings && !x.facade && !x.known && x.listener == None && x.poller == None
  }

  /** Connected over `c`, watching it, and polling and driving it if the instrument is identified. */
  predicate Up(x: Session, c: nat, identified: bool) {
    && x.status == Connected && x.tasks == map[]
    && x.scpi == Some(c) && c in x.open && x.rings && x.listener == Some(c) && x.watched == {c}
    && x.known == identified && x.facade == identified && x.poller.Some? == identified
  }

  /** In error, with nothing open and nothing under way. */
  predicate Down(x: Session) {
    && x.status == Errored && x.tasks == map[]
    && x.scpi == None && !x.rings && !x.facade && x.listener == None && x.poller == None
    && x.open == {} && x.watched == {} && x.pollers == {}
  }

  /** A session in error with no establish under way is down. */
  lemma ErroredIsDown(x: Session)
    requires Fits(x, true) && x.status == Errored && !StillClosing(x)
    ensures Down(x)
  {
    assert forall t | t in x.tasks :: AwaitFits(x, true, x.tasks[t]);
    assert x.tasks.Keys == {};
  }

  /**
   * `reconnect` starts a session that is down again, whatever brought it down, and leaves any that is connecting or
   * connected as it is, and any that is not in the map.
   */
  lemma ReconnectStarts(x: Session, listed: bool, t: nat)
    requires Fits(x, listed) && t !in x.tasks
    ensures var n := Take(x, listed, Reconnects(t));
            && (!listed || x.status != Errored ==> n == x)
            && (listed && x.status == Errored && !StillClosing(x) ==>
                  Starting(n, t) && n.made == x.made && n.open == {} && n.watched == {} && n.pollers == {})
  {
    if listed && x.status == Errored && !StillClosing(x) {
      ErroredIsDown(x);
    }
  }

  /** `open` puts a starting session into the map if there is room, and changes nothing else. */
  lemma OpenStarts(m: Manager, sid: nat, t: nat)
    requires Valid(m) && Enabled(m, Opens(sid, t))
    ensures var n := Step(m, Opens(sid, t));
            if |m.listed| >= m.max then n == m
            else
              && n.listed == m.listed + {sid} && n.max == m.max && sid in n.sessions && Starting(n.sessions[sid], t)
              && n.sessions.Keys == m.sessions.Keys + {sid}
              && forall other | other in m.sessions :: n.sessions[other] == m.sessions[other]
  {
    hide Valid, Starting, Fresh;
    FreshStarts(t);
  }

  lemma FreshStarts(t: nat)
    ensures Starting(Fresh(t), t)
  {
  }

  /** `close` takes the session out of the map and leaves nothing of it open; no other session is touched. */
  lemma CloseEnds(m: Manager, sid: nat)
    requires Valid(m)
    ensures var n := Step(m, Closes(sid));
            && n.listed == m.listed - {sid} && n.sessions.Keys == m.sessions.Keys && n.max == m.max
            && (forall other | other in m.sessions && (other != sid || sid !in m.listed) ::
                  n.sessions[other] == m.sessions[other])
            && (sid in m.listed ==> Over(n.sessions[sid]))
  {
    hide Fits, Apart, Over, Close;
    if sid in m.listed {
      CloseIsOver(m.sessions[sid]);
    }
  }

  /** Nothing of the session is open or running. */
  predicate Over(x: Session) {
    x.open == {} && x.watched == {} && x.pollers == {} && x.listener == None && x.poller == None
  }

  lemma CloseIsOver(x: Session)
    requires Fits(x, true)
    ensures Over(Close(x))
  {
  }

  /** What happens to one session happens to no other. */
  lemma TurnsAreApart(m: Manager, sid: nat, turn: Turn)
    requires Valid(m) && Enabled(m, Turns(sid, turn))
    ensures var n := Step(m, Turns(sid, turn));
            && n.listed == m.listed && n.max == m.max && n.sessions.Keys == m.sessions.Keys
            && forall other | other in m.sessions && other != sid :: n.sessions[other] == m.sessions[other]
  {
  }

  /**
   * An establish that nothing disturbs connects a starting session in the map: over the connection the factory
   * made, and with driver, close listener and error poller as the identity asks, with a `refine` step or without.
   */
  lemma EstablishConnects(x: Session, t: nat, c: nat, found: Match, p: nat)
    requires Fits(x, true) && Starting(x, t) && c !in x.made && p !in x.pollers
    ensures CanTake(x, FactoryOk(t, c))
    ensures var n1 := Take(x, true, FactoryOk(t, c));
            && n1.status == Connecting && n1.scpi == Some(c) && n1.rings && c in n1.open
            && CanTake(n1, IdnOk(t, found, false, p))
            && var n2 := Take(n1, true, IdnOk(t, found, false, p));
            if found == Driver(true) then
              && n2.status == Connecting && n2.known && CanTake(n2, RefineEnds(t, false, p))
              && Up(Take(n2, true, RefineEnds(t, false, p)), c, true)
            else Up(n2, c, found.Driver?)
  {
    assert x.tasks[t := Idn(c)] == map[t := Idn(c)] && map[t := Idn(c)][t := Refine(c)] == map[t := Refine(c)];
    assert x.tasks[t := Idn(c)] - {t} == map[];
  }

  /** From down to up: what a user's `reconnect` comes to when the instrument answers. */
  lemma ReconnectConnects(x: Session, t: nat, c: nat, found: Match, p: nat)
    requires Fits(x, true) && x.status == Errored && !StillClosing(x) && c !in x.made && found != Driver(true)
    ensures CanTake(x, Reconnects(t))
    ensures var n1 := Take(x, true, Reconnects(t));
            && CanTake(n1, FactoryOk(t, c))
            && var n2 := Take(n1, true, FactoryOk(t, c));
            && CanTake(n2, IdnOk(t, found, false, p))
            && Up(Take(n2, true, IdnOk(t, found, false, p)), c, found.Driver?)
  {
    ErroredIsDown(x);
    ReconnectFits(x, t);
    ReconnectStarts(x, true, t);
    EstablishConnects(Take(x, true, Reconnects(t)), t, c, found, p);
  }

  /**
   * An establish that fails puts the session in error: at once if it has no connection yet, else with that connection
   * closed, and down when the close has settled.
   */
  lemma FailureBringsDown(x: Session, t: nat, e: Turn)
    requires Fits(x, true) && t in x.tasks && CanTake(x, e)
    requires || e == FactoryFails(t) || e == IdnFails(t)
             || (e.IdnOk? && e.task == t && e.found == Driver(false) && e.throws)
             || (e.RefineEnds? && e.task == t && e.throws)
    ensures var n := Take(x, true, e);
            if e.FactoryFails? then Down(n)
            else
              && n.status == Errored && n.open == {} && n.tasks == map[t := FailClose(x.tasks[t].conn)]
              && CanTake(n, FailCloseEnds(t)) && Down(Take(n, true, FailCloseEnds(t)))
  {
    assert AwaitFits(x, true, x.tasks[t]);
    assert x.tasks - {t} == map[];
  }

  /** A connected session that loses its connection is down at once, and can be started again. */
  lemma LossBringsDown(x: Session, c: nat)
    requires Fits(x, true) && x.status == Connected && x.scpi == Some(c) && c in x.open
    ensures Down(Take(x, true, PeerLoss(c))) && Take(x, true, PeerLoss(c)).made == x.made
  {
  }

  /** If that close fails, the establish fails, and closes what connection the session has before it ends. */
  lemma GivingUpFails(x: Session, t: nat)
    requires Fits(x, false) && t in x.tasks && x.tasks[t].AbortClose?
    ensures var n := Take(x, false, AbortCloseEnds(t, false));
            && n.status == Errored && n.open == {}
            && if x.scpi.None? then n.tasks == map[] && !n.rings
               else
                 && n.tasks == map[t := FailClose(x.scpi.value)] && CanTake(n, FailCloseEnds(t))
                 && var end := Take(n, false, FailCloseEnds(t));
                    end.tasks == map[] && end.scpi == None && !end.rings
  {
    assert AwaitFits(x, false, x.tasks[t]);
    assert x.tasks.Keys == {t};
    assert x.tasks - {t} == map[];
    assert x.scpi.Some? ==> x.tasks[t := FailClose(x.scpi.value)] == map[t := FailClose(x.scpi.value)];
  }

  /**
   * Once the session has left the map, an establish under way closes its connection at its next step and ends when
   * that close has settled.
   */
  lemma EstablishGivesUp(x: Session, t: nat, e: Turn)
    requires Fits(x, false) && t in x.tasks && CanTake(x, e)
    requires || (e.FactoryOk? && e.task == t) || (e.IdnOk? && e.task == t) || (e.RefineEnds? && e.task == t)
    ensures var n := Take(x, false, e);
            && n.open == {} && n.tasks.Keys == {t} && n.tasks[t].AbortClose?
            && CanTake(n, AbortCloseEnds(t, true)) && Take(n, false, AbortCloseEnds(t, true)).tasks == map[]
  {
    assert AwaitFits(x, false, x.tasks[t]);
    assert x.tasks.Keys == {t};
    var n := Take(x, false, e);
    assert n.tasks - {t} == map[];
  }
}
