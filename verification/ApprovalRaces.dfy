/**
  The ladder beside the owner: a pass reads the pending rows, and writes them one by one later,
  with no guard on what they are by then.  Any number of passes and resolves interleave.
 */
module ApprovalRaces {
  import opened Wrappers
  import opened Policy
  import opened Approvals
  import opened ApprovalSafety

  /** A pass that has read, and the rows it has yet to write, as it saw them. */
  datatype Pass = Pass(now: Time, seen: map<Id, Row>)

  datatype Racing = Racing(s: State, passes: map<nat, Pass>)

  datatype RaceStep = Serve(a: Step) | Read(p: nat, now: Time) | Write(p: nat, id: Id)

  function PendingRows(rows: map<Id, Row>): map<Id, Row> { map id | id in rows && rows[id].status == Pending :: rows[id] }

  function MessageOf(seen: Row, id: Id, now: Time): multiset<Message> {
    match Due(seen, now)
    case Send(k) => multiset{Message(id, k)}
    case _ => multiset{}
  }

  ghost predicate RaceNext(r: Racing, a: RaceStep, r': Racing) {
    match a
    case Serve(b) => Next(r.s, b, r'.s) && r'.passes == r.passes
    case Read(p, now) =>
      p !in r.passes && r'.s == r.s && r'.passes == r.passes[p := Pass(now, PendingRows(r.s.rows))]
    case Write(p, id) =>
      && p in r.passes && id in r.passes[p].seen && id in r.s.rows
      && var (now, seen) := (r.passes[p].now, r.passes[p].seen[id]);
         && r'.s == State(r.s.rows[id := LadderWrite(seen, r.s.rows[id], now)], r.s.events, r.s.sent + MessageOf(seen, id, now))
         && r'.passes == r.passes[p := Pass(now, r.passes[p].seen - {id})]
  }

  datatype Race = Race(states: seq<Racing>, steps: seq<RaceStep>)

  ghost predicate ValidRace(run: Race) {
    && |run.states| == |run.steps| + 1 && run.states[0] == Racing(Empty, map[])
    && forall i :: 0 <= i < |run.steps| ==> RaceNext(run.states[i], run.steps[i], run.states[i + 1])
  }

  // ---- What a pass still holds ----------------------------------------------------------------

  /** A row waiting to be written was pending when read, and its deadline has not moved. */
  ghost predicate SeenOk(r: Racing) {
    forall p, id :: p in r.passes && id in r.passes[p].seen ==>
      && id in r.s.rows && r.passes[p].seen[id].status == Pending
      && r.passes[p].seen[id].expires == r.s.rows[id].expires
  }

  /** Rows stay, with the deadline they had. */
  lemma DeadlineStays(r: Racing, a: RaceStep, r': Racing, id: Id)
    requires RaceNext(r, a, r') && id in r.s.rows
    ensures id in r'.s.rows && r'.s.rows[id].expires == r.s.rows[id].expires
  {
    if a.Serve? { StepKeeps(r.s, a.a, r'.s, id); }
  }

  lemma Seeing(r: Racing, a: RaceStep, r': Racing, p: nat, id: Id)
    requires RaceNext(r, a, r') && p in r'.passes && id in r'.passes[p].seen
    ensures id in r.s.rows ==> id in r'.s.rows && r'.s.rows[id].expires == r.s.rows[id].expires
    ensures (p in r.passes && id in r.passes[p].seen && r'.passes[p].seen[id] == r.passes[p].seen[id])
            || (id in r.s.rows && r.s.rows[id].status == Pending && r'.passes[p].seen[id] == r.s.rows[id])
  {
    if id in r.s.rows { DeadlineStays(r, a, r', id); }
  }

  lemma KeepsSeen(r: Racing, a: RaceStep, r': Racing)
    requires RaceNext(r, a, r') && SeenOk(r)
    ensures SeenOk(r')
  {
    forall p, id | p in r'.passes && id in r'.passes[p].seen
      ensures id in r'.s.rows && r'.passes[p].seen[id].status == Pending && r'.passes[p].seen[id].expires == r'.s.rows[id].expires
    {
      Seeing(r, a, r', p, id);
    }
  }

  lemma {:induction false} AlwaysSeen(run: Race, j: nat)
    requires ValidRace(run) && j < |run.states|
    ensures SeenOk(run.states[j])
  {
    if j > 0 {
      AlwaysSeen(run, j - 1);
      KeepsSeen(run.states[j - 1], run.steps[j - 1], run.states[j]);
    }
  }

  // ---- Taking an answer back ------------------------------------------------------------------

  /** A write past the deadline of a row that was answered since the pass read it. */
  predicate TakesBack(r: Racing, a: RaceStep, id: Id) {
    && a.Write? && a.id == id && a.p in r.passes && id in r.s.rows
    && Answered(r.s.rows[id]) && r.s.rows[id].expires <= r.passes[a.p].now
  }

  /** An answer is lost in a step exactly when the step is such a write. */
  lemma LostIff(run: Race, j: nat, id: Id)
    requires ValidRace(run) && j < |run.steps| && id in run.states[j].s.rows && Answered(run.states[j].s.rows[id])
    ensures id in run.states[j + 1].s.rows
    ensures !Answered(run.states[j + 1].s.rows[id]) <==> TakesBack(run.states[j], run.steps[j], id)
  {
    var (r, a, r') := (run.states[j], run.steps[j], run.states[j + 1]);
    AlwaysSeen(run, j);
    DeadlineStays(r, a, r', id);
    if a.Serve? { StepKeeps(r.s, a.a, r'.s, id); }
  }

  ghost predicate TakenBack(run: Race, j: nat, id: Id)
    requires ValidRace(run) && j < |run.states|
  {
    exists k :: 0 <= k < j && TakesBack(run.states[k], run.steps[k], id)
  }

  predicate Announced(s: State, id: Id) { Count(s.events, id, true) > 0 }

  predicate HasAnswer(s: State, id: Id) { id in s.rows && Answered(s.rows[id]) }

  lemma ResolveAnnounces(s: State, a: Step, s': State, id: Id)
    requires Next(s, a, s') && a.Resolve?
    ensures Announced(s', id) <==> Announced(s, id) || (!HasAnswer(s, id) && HasAnswer(s', id))
  {
    if a.id in s.rows {
      var es := ResolveEvents(a.id, s.rows[a.id], a.ask, a.engine, a.now);
      if es == [] {
        assert s'.events == s.events;
      } else {
        CountNext(s.events, es[0], id, true);
      }
    }
  }

  lemma OthersAnnounceNothing(s: State, a: Step, s': State, id: Id)
    requires Next(s, a, s') && !a.Resolve?
    ensures (Announced(s', id) <==> Announced(s, id)) && (HasAnswer(s', id) ==> HasAnswer(s, id))
  {
    if a.Create? { CountNext(s.events, Requested(a.id, a.tier, a.now + a.expiresIn), id, true); }
  }

  /** A step of the service announces exactly what it answers, and leaves every row that is not pending alone. */
  lemma ServeAnnounces(s: State, a: Step, s': State, id: Id)
    requires Next(s, a, s')
    ensures Announced(s', id) <==> Announced(s, id) || (!HasAnswer(s, id) && HasAnswer(s', id))
    ensures id in s.rows && s.rows[id].status != Pending ==> id in s'.rows && s'.rows[id] == s.rows[id]
  {
    if id in s.rows { StepKeeps(s, a, s', id); }
    if a.Resolve? {
      ResolveAnnounces(s, a, s', id);
    } else {
      OthersAnnounceNothing(s, a, s', id);
    }
  }

  ghost predicate Ledger(run: Race, j: nat, id: Id)
    requires ValidRace(run) && j < |run.states|
  {
    var s := run.states[j].s;
    && (Announced(s, id) <==> HasAnswer(s, id) || TakenBack(run, j, id))
    && (TakenBack(run, j, id) ==> id in s.rows && s.rows[id].status == Expired)
  }

  lemma TakenBackNext(run: Race, j: nat, id: Id)
    requires ValidRace(run) && 0 < j < |run.states|
    ensures TakenBack(run, j, id) <==> TakenBack(run, j - 1, id) || TakesBack(run.states[j - 1], run.steps[j - 1], id)
  {}

  /** A write announces nothing; it expires a row or leaves its status as it is. */
  lemma WriteOnlyExpires(r: Racing, a: RaceStep, r': Racing, id: Id)
    requires RaceNext(r, a, r') && !a.Serve?
    ensures r'.s.events == r.s.events && r'.s.rows.Keys == r.s.rows.Keys
    ensures id in r.s.rows ==> r'.s.rows[id].status == r.s.rows[id].status || r'.s.rows[id].status == Expired
  {}

  lemma LedgerNext(run: Race, j: nat, id: Id)
    requires ValidRace(run) && 0 < j < |run.states| && Ledger(run, j - 1, id)
    ensures Ledger(run, j, id)
  {
    var (r, a, r') := (run.states[j - 1], run.steps[j - 1], run.states[j]);
    TakenBackNext(run, j, id);
    if HasAnswer(r.s, id) { LostIff(run, j - 1, id); }
    if a.Serve? {
      ServeAnnounces(r.s, a.a, r'.s, id);
    } else {
      WriteOnlyExpires(r, a, r', id);
    }
  }

  lemma {:induction false} Ledgers(run: Race, j: nat, id: Id)
    requires ValidRace(run) && j < |run.states|
    ensures Ledger(run, j, id)
  {
    if j > 0 {
      Ledgers(run, j - 1, id);
      LedgerNext(run, j, id);
    }
  }

  /**
    Over any run: the answer was announced and the row does not hold one exactly when a pass that
    read the row pending wrote it, past its deadline, after the answer had come in.
   */
  lemma AnnouncedButNotHeldIff(run: Race, j: nat, id: Id)
    requires ValidRace(run) && j < |run.states|
    ensures Announced(run.states[j].s, id) && !HasAnswer(run.states[j].s, id) <==> TakenBack(run, j, id)
  {
    Ledgers(run, j, id);
  }

  const Parked: Row := NewRow("action.quote.send", 2, "{}", 0, 10)
  const Unanswered: State := State(map[0 := Parked], [Requested(0, 2, 10)], multiset{})
  const Said: State :=
    State(map[0 := Parked.(status := Approved)], [Requested(0, 2, 10)] + [Resolved(0, true, false)], multiset{})
  const Unsaid: State := Said.(rows := map[0 := Parked.(status := Expired)])
  const Seen: map<nat, Pass> := map[0 := Pass(10, map[0 := Parked])]
  const Make: RaceStep := Serve(Create(0, "action.quote.send", 2, "{}", 0, 10))

  function Say(engine: Engine): RaceStep { Serve(Resolve(0, Ask(true, None, None, None), engine, 9, true)) }

  lemma Parks()
    ensures RaceNext(Racing(Empty, map[]), Make, Racing(Unanswered, map[]))
    ensures RaceNext(Racing(Unanswered, map[]), Read(0, 10), Racing(Unanswered, Seen))
  {
    assert Unanswered.rows == Empty.rows[0 := Parked] && Unanswered.events == Empty.events + [Requested(0, 2, 10)];
    assert PendingRows(Unanswered.rows) == map[0 := Parked];
  }

  lemma Says(engine: Engine)
    ensures RaceNext(Racing(Unanswered, Seen), Say(engine), Racing(Said, Seen))
  {
    var ask := Ask(true, None, None, None);
    assert Decided(Parked, ask, engine) == Parked.(status := Approved);
    assert Unanswered.rows[0 := Parked.(status := Approved)] == Said.rows;
  }

  lemma Unsays()
    ensures RaceNext(Racing(Said, Seen), Write(0, 0), Racing(Unsaid, map[0 := Pass(10, map[])]))
  {
    assert Said.rows[0 := Parked.(status := Expired)] == Unsaid.rows && map[0 := Parked] - {0} == map[];
    assert Due(Parked, 10) == Expire && Said.sent + multiset{} == Said.sent;
  }

  /** Such a run: approved with a second to spare between a pass's read and its write, the event already out. */
  lemma TakenBackExample(engine: Engine) returns (run: Race)
    ensures ValidRace(run) && |run.states| == 5
    ensures var last := run.states[4].s;
            Announced(last, 0) && 0 in last.rows && last.rows[0].status == Expired && TakenBack(run, 4, 0)
  {
    Parks();
    Says(engine);
    Unsays();
    run := Race([Racing(Empty, map[]), Racing(Unanswered, map[]), Racing(Unanswered, Seen), Racing(Said, Seen),
                 Racing(Unsaid, map[0 := Pass(10, map[])])],
                [Make, Read(0, 10), Say(engine), Write(0, 0)]);
    assert TakesBack(run.states[3], run.steps[3], 0);
    CountNext([Requested(0, 2, 10)], Resolved(0, true, false), 0, true);
  }
}
