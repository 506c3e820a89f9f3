/**
  What every run of the approval service keeps: one outcome per approval, decided in time and at
  the stored authority, replayed faithfully, with at most one message per rung of the ladder.
 */
module ApprovalSafety {
  import opened Wrappers
  import opened Approvals
  import opened Policy
  import Json

  /** `states[i]` is the state before `steps[i]`. */
  datatype Run = Run(states: seq<State>, steps: seq<Step>)

  ghost predicate ValidRun(run: Run) {
    && |run.states| == |run.steps| + 1 && run.states[0] == Empty
    && forall i :: 0 <= i < |run.steps| ==> Next(run.states[i], run.steps[i], run.states[i + 1])
  }

  predicate Answered(r: Row) { r.status == Approved || r.status == Rejected }

  // ---- What happens to one row ----------------------------------------------------------------

  /** A row's terms never change; a row that is no longer pending never changes at all. */
  predicate Later(r: Row, r': Row) {
    && r'.action == r.action && r'.tier == r.tier && r'.payload == r.payload
    && r'.created == r.created && r'.expires == r.expires
    && (r.reminded ==> r'.reminded) && (r.escalated ==> r'.escalated)
    && (r.status != Pending ==> r' == r)
  }

  lemma StepKeeps(s: State, a: Step, s': State, id: Id)
    requires Next(s, a, s') && id in s.rows
    ensures id in s'.rows && Later(s.rows[id], s'.rows[id])
  {}

  /** No approval is ever forgotten, and a terminal status is final. */
  lemma {:induction false} RunKeeps(run: Run, i: nat, j: nat, id: Id)
    requires ValidRun(run) && i <= j < |run.states| && id in run.states[i].rows
    ensures id in run.states[j].rows && Later(run.states[i].rows[id], run.states[j].rows[id])
    decreases j
  {
    if i < j {
      RunKeeps(run, i, j - 1, id);
      StepKeeps(run.states[j - 1], run.steps[j - 1], run.states[j], id);
    }
  }

  /** A step that gives `r` its answer: in time, and at no higher a tier than the row was parked at. */
  predicate DecidesInTime(a: Step, id: Id, r: Row, r': Row) {
    && a.Resolve? && a.id == id && r.status == Pending && a.now < r.expires && Answered(r')
    && r'.edited == a.ask.edited
    && (r'.status == Approved <==>
        a.ask.approve && (a.ask.edited.Some? ==> a.engine(r.action, a.ask.edited.value) <= r.tier))
  }

  lemma OnlyAResolveDecides(s: State, a: Step, s': State, id: Id)
    requires Next(s, a, s') && id in s'.rows && Answered(s'.rows[id])
    requires id in s.rows ==> !Answered(s.rows[id])
    ensures id in s.rows && DecidesInTime(a, id, s.rows[id], s'.rows[id])
  {}

  predicate DecidedAt(run: Run, i: nat, id: Id)
    requires |run.states| == |run.steps| + 1
  {
    && i < |run.steps| && id in run.states[i].rows && id in run.states[i + 1].rows
    && DecidesInTime(run.steps[i], id, run.states[i].rows[id], run.states[i + 1].rows[id])
  }

  /** Every approved or rejected row got there by a resolve before its deadline. */
  lemma {:induction false} DecidedOnTime(run: Run, j: nat, id: Id) returns (i: nat)
    requires ValidRun(run) && j < |run.states| && id in run.states[j].rows && Answered(run.states[j].rows[id])
    ensures i < j && DecidedAt(run, i, id) && run.states[i + 1].rows[id] == run.states[j].rows[id]
    decreases j
  {
    var s := run.states[j - 1];
    if id in s.rows && Answered(s.rows[id]) {
      StepKeeps(s, run.steps[j - 1], run.states[j], id);
      i := DecidedOnTime(run, j - 1, id);
    } else {
      OnlyAResolveDecides(s, run.steps[j - 1], run.states[j], id);
      i := j - 1;
    }
  }

  // ---- Events ---------------------------------------------------------------------------------

  function Count(events: seq<Event>, id: Id, resolved: bool): nat {
    if events == [] then 0
    else
      var e := events[|events| - 1];
      Count(events[..|events| - 1], id, resolved) + if e.id == id && e.Resolved? == resolved then 1 else 0
  }

  lemma CountNext(events: seq<Event>, e: Event, id: Id, resolved: bool)
    ensures Count(events + [e], id, resolved) == Count(events, id, resolved) + if e.id == id && e.Resolved? == resolved then 1 else 0
  {
    assert (events + [e])[..|events|] == events;
  }

  ghost predicate EventsMatch(s: State, id: Id) {
    && Count(s.events, id, false) == (if id in s.rows then 1 else 0)
    && Count(s.events, id, true) == (if id in s.rows && Answered(s.rows[id]) then 1 else 0)
    && forall e :: e in s.events && e.Resolved? && e.id == id ==>
         id in s.rows && (e.approved <==> s.rows[id].status == Approved) && (e.edited <==> s.rows[id].edited.Some?)
  }

  lemma {:induction false} NoneCounted(events: seq<Event>, id: Id)
    requires Count(events, id, true) == 0
    ensures forall e :: e in events ==> !(e.Resolved? && e.id == id)
  {
    if events != [] {
      NoneCounted(events[..|events| - 1], id);
      assert events == events[..|events| - 1] + [events[|events| - 1]];
    }
  }

  lemma DecisionMatches(s: State, id: Id, r': Row, e: Event, s': State)
    requires EventsMatch(s, id) && id in s.rows && !Answered(s.rows[id]) && Answered(r')
    requires e == Resolved(id, r'.status == Approved, r'.edited.Some?)
    requires s' == State(s.rows[id := r'], s.events + [e], s.sent)
    ensures EventsMatch(s', id)
  {
    CountNext(s.events, e, id, true);
    CountNext(s.events, e, id, false);
    NoneCounted(s.events, id);
  }

  lemma ElsewhereMatches(s: State, id: Id, e: Event, s': State)
    requires EventsMatch(s, id) && e.id != id && s'.events == s.events + [e]
    requires (id in s.rows <==> id in s'.rows) && (id in s.rows ==> s'.rows[id] == s.rows[id])
    ensures EventsMatch(s', id)
  {
    CountNext(s.events, e, id, true);
    CountNext(s.events, e, id, false);
  }

  lemma ResolveMatches(s: State, a: Step, s': State, id: Id)
    requires Next(s, a, s') && EventsMatch(s, id) && a.Resolve?
    ensures EventsMatch(s', id)
  {
    if a.id in s.rows {
      var r := s.rows[a.id];
      var es := ResolveEvents(a.id, r, a.ask, a.engine, a.now);
      if es == [] {
        assert s'.events == s.events;
      } else if a.id == id {
        DecisionMatches(s, id, Decided(r, a.ask, a.engine), es[0], s');
      } else {
        ElsewhereMatches(s, id, es[0], s');
      }
    }
  }

  lemma CreateMatches(s: State, a: Step, s': State, id: Id)
    requires Next(s, a, s') && EventsMatch(s, id) && a.Create?
    ensures EventsMatch(s', id)
  {
    var e := Requested(a.id, a.tier, a.now + a.expiresIn);
    CountNext(s.events, e, id, true);
    CountNext(s.events, e, id, false);
    forall x | x in s'.events && x.Resolved? ensures x in s.events {}
  }

  lemma StepMatches(s: State, a: Step, s': State, id: Id)
    requires Next(s, a, s') && EventsMatch(s, id)
    ensures EventsMatch(s', id)
  {
    match a
    case Create(_, _, _, _, _, _) => CreateMatches(s, a, s', id);
    case Resolve(_, _, _, _, _) => ResolveMatches(s, a, s', id);
    case Ladder(_) =>
    case BrokenLadder(_, _) =>
  }

  /** One request per approval; one resolution, agreeing with the row, exactly when it was answered. */
  lemma {:induction false} OneOutcome(run: Run, j: nat, id: Id)
    requires ValidRun(run) && j < |run.states|
    ensures EventsMatch(run.states[j], id)
    decreases j
  {
    if j > 0 {
      OneOutcome(run, j - 1, id);
      StepMatches(run.states[j - 1], run.steps[j - 1], run.states[j], id);
    }
  }

  // ---- Replays --------------------------------------------------------------------------------

  /**
    After a first answer, every later resolve of the same approval returns the same status, edited
    flag and note, and the stored tier: the first answer's tier exactly when the edit did not escalate.
   */
  lemma ReplayAgrees(run: Run, i: nat, j: nat, ask: Ask, engine: Engine, now: Time)
    requires ValidRun(run) && i < j < |run.states| && run.steps[i].Resolve? && run.steps[i].id in run.states[i].rows
    requires var a := run.steps[i]; var first := ResolveAnswer(run.states[i].rows[a.id], a.ask, a.engine, a.now);
             first.Result? && !first.replay
    ensures var a := run.steps[i]; var r := run.states[i].rows[a.id];
            var first := ResolveAnswer(r, a.ask, a.engine, a.now);
            && a.id in run.states[j].rows
            && var again := ResolveAnswer(run.states[j].rows[a.id], ask, engine, now);
               && again == Result(first.status, r.tier, first.edited, true, first.note)
               && (again.tier == first.tier <==> !EditEscalates(r, a.ask, a.engine))
               && ResolveRow(run.states[j].rows[a.id], ask, engine, now, true) == run.states[j].rows[a.id]
               && ResolveEvents(a.id, run.states[j].rows[a.id], ask, engine, now) == []
  {
    var a := run.steps[i];
    assert Next(run.states[i], a, run.states[i + 1]);
    RunKeeps(run, i + 1, j, a.id);
  }

  /**
    What one resolve does, in each of its cases: an answered or expired row is replayed and stays; past
    its deadline it is marked expired, if the caller commits after the error; in time it takes the owner's
    answer, but an approved edit that calls for a higher tier is turned into a refusal at that tier.
   */
  lemma ResolutionIs(id: Id, r: Row, ask: Ask, engine: Engine, now: Time, keep: bool)
    ensures var (r', answer, es) := (ResolveRow(r, ask, engine, now, keep), ResolveAnswer(r, ask, engine, now),
                                     ResolveEvents(id, r, ask, engine, now));
            if r.status != Pending then
              r' == r && es == [] && answer == Result(r.status, r.tier, r.edited.Some?, true, r.note)
            else if now >= r.expires then
              r' == (if keep then r.(status := Expired) else r) && es == [] && answer == Gone
            else
              var tier := if ask.edited.Some? then engine(r.action, ask.edited.value) else r.tier;
              if ask.approve && tier > r.tier then
                var note := Some("edit raises tier " + Json.PrintInt(r.tier) + "\U{2192}" + Json.PrintInt(tier)
                                 + "; needs re-approval at the higher tier");
                var reason := if ask.reason == None || ask.reason == Some("") then Some("edit_escalates_tier") else ask.reason;
                && r' == r.(status := Rejected, edited := ask.edited, note := note, reason := reason)
                && es == [Resolved(id, false, true)] && answer == Result(Rejected, tier, true, false, note)
              else
                var status := if ask.approve then Approved else Rejected;
                && r' == r.(status := status, edited := ask.edited, note := ask.note, reason := ask.reason)
                && es == [Resolved(id, ask.approve, ask.edited.Some?)]
                && answer == Result(status, r.tier, ask.edited.Some?, false, ask.note)
  {}

  // ---- Deadlines ------------------------------------------------------------------------------

  /** A ladder pass leaves nothing pending past its deadline, now or at any later point of the run. */
  lemma LadderSettles(run: Run, i: nat, j: nat, id: Id)
    requires ValidRun(run) && i < j < |run.states| && run.steps[i].Ladder? && id in run.states[i].rows
    requires run.states[i].rows[id].expires <= run.steps[i].now
    ensures id in run.states[j].rows && run.states[j].rows[id].status != Pending
    ensures run.states[i].rows[id].status == Pending ==> run.states[j].rows[id].status == Expired
  {
    assert Next(run.states[i], run.steps[i], run.states[i + 1]);
    RunKeeps(run, i + 1, j, id);
  }

  /**
    The expiry error comes exactly for a row still pending past its deadline.  Once a ladder pass
    has been by, an approval nobody answered is replayed as expired instead.
   */
  lemma GoneIff(run: Run, i: nat, j: nat, id: Id, ask: Ask, engine: Engine, now: Time)
    requires ValidRun(run) && i <= j < |run.states| && id in run.states[i].rows
    ensures id in run.states[j].rows
    ensures var r := run.states[j].rows[id];
            ResolveAnswer(r, ask, engine, now) == Gone <==> r.status == Pending && run.states[i].rows[id].expires <= now
    ensures i < j && run.steps[i].Ladder? && run.states[i].rows[id].expires <= run.steps[i].now ==>
              var (was, r) := (run.states[i].rows[id], run.states[j].rows[id]);
              && ResolveAnswer(r, ask, engine, now) != Gone
              && (was.status == Pending ==>
                    ResolveAnswer(r, ask, engine, now) == Result(Expired, was.tier, r.edited.Some?, true, r.note))
  {
    RunKeeps(run, i, j, id);
    if i < j && run.steps[i].Ladder? && run.states[i].rows[id].expires <= run.steps[i].now {
      LadderSettles(run, i, j, id);
    }
  }

  /** An edit to tier 3 of a row parked at 2: answered with 3, replayed with 2. */
  lemma ReplayTierExample()
    ensures var (r, ask) := (NewRow("action.quote.send", 2, "{}", 0, 10), Ask(true, Some("{}"), None, None));
            var engine: Engine := (_, _) => 3;
            && ResolveAnswer(r, ask, engine, 1).tier == 3
            && ResolveAnswer(ResolveRow(r, ask, engine, 1, true), ask, engine, 2).tier == 2
  {}

  /** A row the ladder has expired is replayed, not refused as expired; without the pass it is. */
  lemma ExpiredReplayExample(ask: Ask, engine: Engine)
    ensures var r := NewRow("action.quote.send", 2, "{}", 0, 10);
            && ResolveAnswer(r, ask, engine, 11) == Gone
            && ResolveAnswer(Advance(r, 10), ask, engine, 11) == Result(Expired, 2, false, true, None)
  {}

  /**
    What a pass does with one row, at whatever time: pending, it is expired from its deadline on;
    before that it is escalated once three quarters of its window are over, or else reminded once
    half of it is; each at most once, and nothing else happens to it.
   */
  lemma RungIs(rows: map<Id, Row>, id: Id, now: Time)
    requires id in rows
    ensures var (r, r') := (rows[id], LadderRows(rows, now)[id]);
            var (over, all) := (now - r.created, r.expires - r.created);
            var escalates := r.status == Pending && now < r.expires && !r.escalated && over * 4 >= all * 3;
            var reminds := r.status == Pending && now < r.expires && !escalates && !r.reminded && over * 2 >= all;
            && r' == (if r.status == Pending && now >= r.expires then r.(status := Expired)
                      else r.(escalated := r.escalated || escalates, reminded := r.reminded || reminds))
            && (Sends(rows, now, Message(id, Escalate)) <==> escalates)
            && (Sends(rows, now, Message(id, Remind)) <==> reminds)
  {}

  // ---- Messages -------------------------------------------------------------------------------

  predicate Stamped(r: Row, k: Kind) { if k == Remind then r.reminded else r.escalated }

  function Broken(steps: seq<Step>): nat {
    if steps == [] then 0
    else Broken(steps[..|steps| - 1]) + if steps[|steps| - 1].BrokenLadder? then 1 else 0
  }

  ghost predicate Bounded(s: State, id: Id, k: Kind, lost: nat) {
    s.sent[Message(id, k)] <= lost + if id in s.rows && Stamped(s.rows[id], k) then 1 else 0
  }

  lemma StepBounded(s: State, a: Step, s': State, id: Id, k: Kind, lost: nat)
    requires Next(s, a, s') && Bounded(s, id, k, lost)
    ensures Bounded(s', id, k, lost + if a.BrokenLadder? then 1 else 0)
  {
    match a
    case Create(_, _, _, _, _, _) =>
    case Resolve(_, _, _, _, _) =>
    case Ladder(now) =>
      assert s'.sent[Message(id, k)] == s.sent[Message(id, k)] + if Sends(s.rows, now, Message(id, k)) then 1 else 0;
    case BrokenLadder(_, reached) =>
      assert s'.sent[Message(id, k)] <= s.sent[Message(id, k)] + 1;
  }

  /** At most one reminder and one escalation per approval, plus one for each pass that rolled back. */
  lemma {:induction false} OneMessagePerRung(run: Run, j: nat, id: Id, k: Kind)
    requires ValidRun(run) && j < |run.states|
    ensures Bounded(run.states[j], id, k, Broken(run.steps[..j]))
    decreases j
  {
    if j > 0 {
      OneMessagePerRung(run, j - 1, id, k);
      StepBounded(run.states[j - 1], run.steps[j - 1], run.states[j], id, k, Broken(run.steps[..j - 1]));
      assert run.steps[..j][..j - 1] == run.steps[..j - 1];
    }
  }

  /** Without a rolled-back pass the owner hears of each rung at most once. */
  lemma OnceWithoutFailures(run: Run, j: nat, id: Id, k: Kind)
    requires ValidRun(run) && j < |run.states| && forall i :: 0 <= i < j ==> !run.steps[i].BrokenLadder?
    ensures run.states[j].sent[Message(id, k)] <= 1
  {
    OneMessagePerRung(run, j, id, k);
    NoneBroken(run.steps[..j]);
  }

  lemma {:induction false} NoneBroken(steps: seq<Step>)
    requires forall i :: 0 <= i < |steps| ==> !steps[i].BrokenLadder?
    ensures Broken(steps) == 0
  {
    if steps != [] { NoneBroken(steps[..|steps| - 1]); }
  }
}
