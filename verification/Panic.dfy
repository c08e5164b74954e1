/**
 * `panic`: switch off the outputs of every connected session that can be switched off, all at once, and
 * keep a bounded history of what came of it. Several panics may be under way; each works on the sessions
 * that were in the manager's map when it was called.
 */
module Panics {
  import opened Common
  import opened OutputKill

  /** What `panic` looks at: is the session connected, and can its facade switch outputs off. */
  datatype SessionInfo = SessionInfo(id: nat, connected: bool, killable: bool)

  datatype Reason = NotConnected | NotKillable

  datatype Touched = Touched(id: nat, outcome: KillResult)

  datatype Skipped = Skipped(id: nat, reason: Reason)

  datatype PanicResult = PanicResult(touched: seq<Touched>, skipped: seq<Skipped>)

  /** `kills` is what the kills that have settled so far gave: None if one threw or did not answer in time. */
  datatype Pending = Pending(all: seq<SessionInfo>, kills: map<nat, Option<KillResult>>)

  predicate CanKill(s: SessionInfo) {
    s.connected && s.killable
  }

  function KillableIds(all: seq<SessionInfo>): seq<nat> {
    if all == [] then []
    else
      var last := all[|all| - 1];
      KillableIds(all[..|all| - 1]) + (if CanKill(last) then [last.id] else [])
  }

  function SkippedOf(all: seq<SessionInfo>): seq<Skipped> {
    if all == [] then []
    else
      var last := all[|all| - 1];
      SkippedOf(all[..|all| - 1])
      + (if CanKill(last) then [] else [Skipped(last.id, if last.connected then NotKillable else NotConnected)])
  }

  function Ids(all: seq<SessionInfo>): seq<nat> {
    seq(|all|, i requires 0 <= i < |all| => all[i].id)
  }

  function SkippedIds(skipped: seq<Skipped>): seq<nat> {
    seq(|skipped|, i requires 0 <= i < |skipped| => skipped[i].id)
  }

  function TouchedIds(touched: seq<Touched>): seq<nat> {
    seq(|touched|, i requires 0 <= i < |touched| => touched[i].id)
  }

  /** Sorts the sessions in the map, in map order, into those to switch off and those to skip. */
  method SortOut(all: seq<SessionInfo>) returns (killable: seq<nat>, skipped: seq<Skipped>)
    ensures killable == KillableIds(all) && skipped == SkippedOf(all)
  {
    killable, skipped := [], [];
    for i := 0 to |all|
      invariant killable == KillableIds(all[..i]) && skipped == SkippedOf(all[..i])
    {
      var session := all[i];
      assert all[..i + 1][..i] == all[..i];
      if !session.connected {
        skipped := skipped + [Skipped(session.id, NotConnected)];
      } else if !session.killable {
        skipped := skipped + [Skipped(session.id, NotKillable)];
      } else {
        killable := killable + [session.id];
      }
    }
    assert all[..|all|] == all;
  }

  /** A kill that throws or does not answer in time is an error of its own. */
  function OutcomeOf(kill: Option<KillResult>): KillResult {
    match kill
    case Some(r) => r
    case None => KillResult(Error, [], [OutputKill.Panic])
  }

  // ---------------------------------------------------------------------------
  // Panics as a state machine
  // ---------------------------------------------------------------------------

  /** `done` pairs each result, in completion order, with the panic it is the result of. */
  datatype Desk = Desk(
    max: nat,
    pending: map<nat, Pending>,
    history: seq<PanicResult>,
    done: seq<(Pending, PanicResult)>)

  datatype Event =
    | Calls(panic: nat, all: seq<SessionInfo>)
    | Settles(panic: nat, session: nat, kill: Option<KillResult>)
    | Finishes(panic: nat)

  /** The ids of the sessions in a map are distinct. */
  predicate DistinctIds(all: seq<SessionInfo>) {
    forall i, j | 0 <= i < j < |all| :: all[i].id != all[j].id
  }

  /** Calls have fresh names; a kill settles once; a panic finishes when all its kills have settled. */
  predicate Enabled(d: Desk, e: Event) {
    match e
    case Calls(p, all) => p !in d.pending && DistinctIds(all)
    case Settles(p, s, _) => p in d.pending && s in KillableIds(d.pending[p].all) && s !in d.pending[p].kills
    case Finishes(p) =>
      p in d.pending && forall s | s in KillableIds(d.pending[p].all) :: s in d.pending[p].kills
  }

  function TouchedOf(ids: seq<nat>, kills: map<nat, Option<KillResult>>): seq<Touched>
    requires forall s | s in ids :: s in kills
  {
    seq(|ids|, i requires 0 <= i < |ids| => Touched(ids[i], OutcomeOf(kills[ids[i]])))
  }

  function ResultOf(p: Pending): PanicResult
    requires forall s | s in KillableIds(p.all) :: s in p.kills
  {
    PanicResult(TouchedOf(KillableIds(p.all), p.kills), SkippedOf(p.all))
  }

  /** A result joins the history; the oldest leave while it is over length. */
  function Step(d: Desk, e: Event): Desk
    requires Enabled(d, e)
  {
    match e
    case Calls(p, all) => d.(pending := d.pending[p := Pending(all, map[])])
    case Settles(p, s, kill) =>
      var was := d.pending[p];
      d.(pending := d.pending[p := was.(kills := was.kills[s := kill])])
    case Finishes(p) =>
      var r := ResultOf(d.pending[p]);
      d.(pending := d.pending - {p},
         history := LastN(d.history + [r], d.max),
         done := d.done + [(d.pending[p], r)])
  }

  /** The history of a server process. */
  class PanicHistory {
    const max: nat
    var results: seq<PanicResult>

    constructor (max: nat)
      ensures this.max == max && results == []
    {
      this.max, results := max, [];
    }

    method Record(r: PanicResult)
      requires |results| <= max
      modifies this
      ensures results == LastN(old(results) + [r], max) && |results| <= max
    {
      results := DropOldest(results + [r], max);
    }
  }

  // ---------------------------------------------------------------------------
  // Accounting
  // ---------------------------------------------------------------------------

  lemma SortedOne(all: seq<SessionInfo>)
    requires all != []
    ensures var front, last := all[..|all| - 1], all[|all| - 1];
            && Ids(all) == Ids(front) + [last.id]
            && KillableIds(all) == (if CanKill(last) then KillableIds(front) + [last.id] else KillableIds(front))
            && SkippedIds(SkippedOf(all)) ==
               (if CanKill(last) then SkippedIds(SkippedOf(front)) else SkippedIds(SkippedOf(front)) + [last.id])
  {
  }

  lemma {:induction false} SortedShare(all: seq<SessionInfo>)
    ensures Share(KillableIds(all), SkippedIds(SkippedOf(all)), Ids(all))
  {
    hide KillableIds, SkippedOf, Share;
    if all == [] {
      SortedNone();
    } else {
      var front, last := all[..|all| - 1], all[|all| - 1];
      SortedShare(front);
      SortedOne(all);
      ShareMore(KillableIds(front), SkippedIds(SkippedOf(front)), Ids(front), last.id);
    }
  }

  lemma SortedNone()
    ensures Share(KillableIds([]), SkippedIds(SkippedOf([])), Ids([]))
  {
  }

  lemma IdsDistinct(all: seq<SessionInfo>)
    requires DistinctIds(all)
    ensures forall i, j | 0 <= i < j < |Ids(all)| :: Ids(all)[i] != Ids(all)[j]
  {
  }

  lemma WhichList(all: seq<SessionInfo>, k: nat)
    requires k < |all|
    ensures CanKill(all[k]) ==> all[k].id in KillableIds(all)
    ensures !CanKill(all[k]) ==>
              Skipped(all[k].id, if all[k].connected then NotKillable else NotConnected) in SkippedOf(all)
  {
    if k == |all| - 1 {
    } else {
      WhichList(all[..|all| - 1], k);
    }
  }

  lemma SkippedListed(skipped: seq<Skipped>, s: Skipped)
    requires s in skipped
    ensures s.id in SkippedIds(skipped)
  {
    var i :| 0 <= i < |skipped| && skipped[i] == s;
    assert SkippedIds(skipped)[i] == s.id;
  }

  /** What a kill gave is reported as it is; one that threw or timed out as an error that touched nothing. */
  predicate ReportedAs(kill: Option<KillResult>, outcome: KillResult) {
    match kill
    case Some(r) => outcome == r
    case None => outcome.kind == Error && outcome.touched == [] && OutputKill.Panic in outcome.errors
  }

  /** The report `r` names the session `s` in the right one of its two lists. */
  predicate Reported(s: SessionInfo, r: PanicResult) {
    if s.connected && s.killable then s.id in TouchedIds(r.touched) && s.id !in SkippedIds(r.skipped)
    else
      && s.id !in TouchedIds(r.touched)
      && Skipped(s.id, if s.connected then NotKillable else NotConnected) in r.skipped
  }

  /** Every session of the map is reported once, and nothing else is; a touched one with its own outcome. */
  ghost predicate Accounts(p: Pending, r: PanicResult) {
    && multiset(TouchedIds(r.touched)) + multiset(SkippedIds(r.skipped)) == multiset(Ids(p.all))
    && (forall k | 0 <= k < |p.all| :: Reported(p.all[k], r))
    && (forall t | t in r.touched :: t.id in p.kills && ReportedAs(p.kills[t.id], t.outcome))
  }

  lemma ResultAccounts(p: Pending)
    requires DistinctIds(p.all) && forall s | s in KillableIds(p.all) :: s in p.kills
    ensures Accounts(p, ResultOf(p))
  {
    var r := ResultOf(p);
    var a, b := KillableIds(p.all), SkippedIds(r.skipped);
    assert TouchedIds(r.touched) == a;
    SortedShare(p.all);
    IdsDistinct(p.all);
    forall k | 0 <= k < |p.all| ensures Reported(p.all[k], r) {
      var id := p.all[k].id;
      assert Ids(p.all)[k] == id;
      WhichList(p.all, k);
      Distinct(Ids(p.all), id);
      assert multiset(a)[id] + multiset(b)[id] == 1;
      if CanKill(p.all[k]) {
        assert id in multiset(a);
      } else {
        SkippedListed(r.skipped, Skipped(id, if p.all[k].connected then NotKillable else NotConnected));
        assert id in multiset(b);
      }
    }
  }

  ghost predicate Valid(d: Desk) {
    && (forall p | p in d.pending :: DistinctIds(d.pending[p].all))
    && d.history == LastN(Results(d.done), d.max)
    && (forall k | 0 <= k < |d.done| :: Accounts(d.done[k].0, d.done[k].1))
  }

  function Results(done: seq<(Pending, PanicResult)>): seq<PanicResult> {
    seq(|done|, i requires 0 <= i < |done| => done[i].1)
  }

  lemma StepValid(d: Desk, e: Event)
    requires Valid(d) && Enabled(d, e)
    ensures Valid(Step(d, e))
  {
    hide Accounts;
    hide ResultOf;
    hide LastN;
    hide KillableIds;
    match e
    case Calls(p, all) =>
    case Settles(p, s, kill) =>
    case Finishes(p) =>
      ResultAccounts(d.pending[p]);
      LastNAppend(Results(d.done), [ResultOf(d.pending[p])], d.max);
      assert Results(d.done + [(d.pending[p], ResultOf(d.pending[p]))]) == Results(d.done) + [ResultOf(d.pending[p])];
  }

  ghost predicate Legal(trace: Trace<Event>, max: nat)
    decreases trace, 0
  {
    trace.Then? ==> Legal(trace.before, max) && Enabled(Run(trace.before, max), trace.event)
  }

  ghost function Run(trace: Trace<Event>, max: nat): (d: Desk)
    requires Legal(trace, max)
    ensures Valid(d)
    decreases trace, 1
  {
    match trace
    case Start => Desk(max, map[], [], [])
    case Then(before, event) =>
      StepValid(Run(before, max), event);
      Step(Run(before, max), event)
  }

  /**
   * Panic accounting, in every run: the history is the last `max` results in completion order, and in
   * each result every session that was in the map when that panic was called appears exactly once,
   * touched if it was connected and killable and skipped with the right reason if not, and each touched
   * session with what its own kill gave, or as an error if that threw or timed out.
   */
  lemma PanicAccounting(trace: Trace<Event>, max: nat, k: nat)
    requires Legal(trace, max) && k < |Run(trace, max).done|
    ensures Run(trace, max).history == LastN(Results(Run(trace, max).done), max)
    ensures var (p, r) := Run(trace, max).done[k];
            && multiset(TouchedIds(r.touched)) + multiset(SkippedIds(r.skipped)) == multiset(Ids(p.all))
            && (forall i | 0 <= i < |p.all| :: Reported(p.all[i], r))
            && (forall t | t in r.touched :: t.id in p.kills && ReportedAs(p.kills[t.id], t.outcome))
  {
    MaxKept(trace, max);
    assert Accounts(Run(trace, max).done[k].0, Run(trace, max).done[k].1);
  }

  /** The sessions in the map at the last call of this name. */
  ghost function CalledOn(trace: Trace<Event>, panic: nat): seq<SessionInfo> {
    match trace
    case Start => []
    case Then(before, e) => if e.Calls? && e.panic == panic then e.all else CalledOn(before, panic)
  }

  /** What the kill of a session gave since the last call of this name, if it has settled. */
  ghost function Gave(trace: Trace<Event>, panic: nat, session: nat): Option<Option<KillResult>> {
    match trace
    case Start => None
    case Then(before, e) =>
      if e.Calls? && e.panic == panic then None
      else if e.Settles? && e.panic == panic && e.session == session then Some(e.kill)
      else Gave(before, panic, session)
  }

  lemma {:induction false} PendingIsHistory(trace: Trace<Event>, max: nat, panic: nat, session: nat)
    requires Legal(trace, max) && panic in Run(trace, max).pending
    ensures var p := Run(trace, max).pending[panic];
            && p.all == CalledOn(trace, panic)
            && Gave(trace, panic, session) == if session in p.kills then Some(p.kills[session]) else None
  {
    match trace
    case Start =>
    case Then(before, e) =>
      if e.Calls? && e.panic == panic {
      } else {
        PendingIsHistory(before, max, panic, session);
      }
  }

  /**
   * When a panic finishes, the newest result says of each session that was in the map at the call what became of it
   * in the run since: that it was skipped, and why, or what its kill gave. The panic is over with that.
   */
  lemma PanicReports(trace: Trace<Event>, max: nat, panic: nat, k: nat)
    requires Legal(trace, max) && max > 0 && Enabled(Run(trace, max), Finishes(panic)) && k < |CalledOn(trace, panic)|
    ensures panic !in Step(Run(trace, max), Finishes(panic)).pending
    ensures var history := Step(Run(trace, max), Finishes(panic)).history;
            && history != []
            && var r := history[|history| - 1];
            var s := CalledOn(trace, panic)[k];
            && Reported(s, r)
            && forall t | t in r.touched && t.id == s.id ::
                 Gave(trace, panic, s.id).Some? && ReportedAs(Gave(trace, panic, s.id).value, t.outcome)
  {
    var d := Run(trace, max);
    var p := d.pending[panic];
    MaxKept(trace, max);
    PendingIsHistory(trace, max, panic, CalledOn(trace, panic)[k].id);
    assert DistinctIds(p.all);
    NewestResult(d, panic);
    hide Legal, Run, Step, Valid, ResultOf, Reported, ReportedAs, CalledOn, Gave, DistinctIds;
    ResultAccounts(p);
  }

  lemma NewestResult(d: Desk, panic: nat)
    requires Enabled(d, Finishes(panic)) && d.max > 0
    ensures var history := Step(d, Finishes(panic)).history;
            history != [] && history[|history| - 1] == ResultOf(d.pending[panic])
    ensures panic !in Step(d, Finishes(panic)).pending
  {
    hide ResultOf;
    var all := d.history + [ResultOf(d.pending[panic])];
    assert LastN(all, d.max)[|LastN(all, d.max)| - 1] == all[|all| - 1];
  }

  lemma StepKeepsMax(d: Desk, e: Event)
    requires Enabled(d, e)
    ensures Step(d, e).max == d.max
  {
  }

  lemma {:induction false} MaxKept(trace: Trace<Event>, max: nat)
    requires Legal(trace, max)
    ensures Run(trace, max).max == max
  {
    hide Step, Valid;
    match trace
    case Start =>
    case Then(before, e) =>
      MaxKept(before, max);
      StepKeepsMax(Run(before, max), e);
  }
}
