/**
  Parked actions of one organisation: created pending, resolved once by the owner or expired, and
  chased by the reminder and escalation ladder.
 */
module Approvals {
  import opened Wrappers
  import opened Policy
  import Json

  type Id = nat
  type Time = int
  type Payload = string

  datatype Status = Pending | Approved | Rejected | Expired

  datatype Row = Row(
    action: Action,
    tier: int,
    payload: Payload,
    created: Time,
    expires: Time,
    status: Status,
    edited: Option<Payload>,
    note: Option<string>,
    reason: Option<string>,
    reminded: bool,
    escalated: bool)

  datatype Event = Requested(id: Id, tier: int, expiry: Time) | Resolved(id: Id, approved: bool, edited: bool)

  datatype Kind = Remind | Escalate

  datatype Message = Message(id: Id, kind: Kind)

  /** The rows, the outbox, and the messages that have left for the owner. */
  datatype State = State(rows: map<Id, Row>, events: seq<Event>, sent: multiset<Message>)

  const Empty: State := State(map[], [], multiset{})

  // ---- Resolving ------------------------------------------------------------------------------

  /** What the owner asks for; `approve` is `decision == "approve"`. */
  datatype Ask = Ask(approve: bool, edited: Option<Payload>, reason: Option<string>, note: Option<string>)

  datatype Answer =
    | NotFound
    | Gone
    | Result(status: Status, tier: int, edited: bool, replay: bool, note: Option<string>)

  /** The tier the policy engine gives an action with a payload, at the time it is asked. */
  type Engine = (Action, Payload) -> int

  predicate EditEscalates(r: Row, ask: Ask, engine: Engine) {
    ask.approve && ask.edited.Some? && engine(r.action, ask.edited.value) > r.tier
  }

  function EscalatedNote(tier: int, newTier: int): string {
    "edit raises tier " + Json.Print(Json.Int(tier)) + "\U{2192}" + Json.Print(Json.Int(newTier))
    + "; needs re-approval at the higher tier"
  }

  function ReasonOr(reason: Option<string>): Option<string> {
    if reason.Some? && reason.value != "" then reason else Some("edit_escalates_tier")
  }

  function Decided(r: Row, ask: Ask, engine: Engine): Row {
    if EditEscalates(r, ask, engine) then
      r.(
        status := Rejected, edited := ask.edited,
        note := Some(EscalatedNote(r.tier, engine(r.action, ask.edited.value))),
        reason := ReasonOr(ask.reason))
    else
      r.(status := if ask.approve then Approved else Rejected, edited := ask.edited, note := ask.note, reason := ask.reason)
  }

  /** `keep` says whether the transaction that marked the row expired is committed after the error. */
  function ResolveRow(r: Row, ask: Ask, engine: Engine, now: Time, keep: bool): Row {
    if r.status != Pending then r
    else if r.expires <= now then if keep then r.(status := Expired) else r
    else Decided(r, ask, engine)
  }

  function ResolveAnswer(r: Row, ask: Ask, engine: Engine, now: Time): Answer {
    if r.status != Pending then Result(r.status, r.tier, r.edited.Some?, true, r.note)
    else if r.expires <= now then Gone
    else
      var d := Decided(r, ask, engine);
      Result(d.status, if EditEscalates(r, ask, engine) then engine(r.action, ask.edited.value) else r.tier,
             d.edited.Some?, false, d.note)
  }

  function ResolveEvents(id: Id, r: Row, ask: Ask, engine: Engine, now: Time): seq<Event> {
    if r.status == Pending && now < r.expires then
      [Resolved(id, Decided(r, ask, engine).status == Approved, ask.edited.Some?)]
    else []
  }

  // ---- The ladder -----------------------------------------------------------------------------

  datatype Rung = Expire | Send(kind: Kind) | Wait

  /** Past the deadline, past three quarters of the window, past half of it, or nothing due. */
  function Due(r: Row, now: Time): Rung {
    var (window, elapsed) := (r.expires - r.created, now - r.created);
    if now >= r.expires then Expire
    else if !r.escalated && 4 * elapsed >= 3 * window then Send(Escalate)
    else if !r.reminded && 2 * elapsed >= window then Send(Remind)
    else Wait
  }

  /** The update follows what was read (`seen`) and has no guard on what is there by then. */
  function LadderWrite(seen: Row, r: Row, now: Time): Row {
    if seen.status != Pending then r
    else
      match Due(seen, now)
      case Expire => r.(status := Expired)
      case Send(Escalate) => r.(escalated := true)
      case Send(Remind) => r.(reminded := true)
      case Wait => r
  }

  function Advance(r: Row, now: Time): Row { LadderWrite(r, r, now) }

  function LadderRows(rows: map<Id, Row>, now: Time): map<Id, Row> {
    map id | id in rows :: Advance(rows[id], now)
  }

  predicate Sends(rows: map<Id, Row>, now: Time, m: Message) {
    m.id in rows && rows[m.id].status == Pending && Due(rows[m.id], now) == Send(m.kind)
  }

  /** One message for each row of `reached` that is due one. */
  ghost predicate SentFor(rows: map<Id, Row>, reached: set<Id>, now: Time, sent: multiset<Message>, sent': multiset<Message>) {
    forall m :: sent'[m] == sent[m] + if m.id in reached && Sends(rows, now, m) then 1 else 0
  }

  // ---- Steps ----------------------------------------------------------------------------------

  datatype Step =
    | Create(id: Id, action: Action, tier: int, payload: Payload, now: Time, expiresIn: int)
    | Resolve(id: Id, ask: Ask, engine: Engine, now: Time, keep: bool)
    | Ladder(now: Time)
    | BrokenLadder(now: Time, reached: set<Id>)     // fails after these sends and rolls back

  function NewRow(action: Action, tier: int, payload: Payload, now: Time, expiresIn: int): Row {
    Row(action, tier, payload, now, now + expiresIn, Pending, None, None, None, false, false)
  }

  ghost predicate Next(s: State, a: Step, s': State) {
    match a
    case Create(id, action, tier, payload, now, expiresIn) =>
      && id !in s.rows
      && s' == State(s.rows[id := NewRow(action, tier, payload, now, expiresIn)],
                     s.events + [Requested(id, tier, now + expiresIn)], s.sent)
    case Resolve(id, ask, engine, now, keep) =>
      if id !in s.rows then s' == s
      else
        s' == State(s.rows[id := ResolveRow(s.rows[id], ask, engine, now, keep)],
                    s.events + ResolveEvents(id, s.rows[id], ask, engine, now), s.sent)
    case Ladder(now) =>
      && s'.rows == LadderRows(s.rows, now) && s'.events == s.events
      && SentFor(s.rows, s.rows.Keys, now, s.sent, s'.sent)
    case BrokenLadder(now, reached) =>
      && s'.rows == s.rows && s'.events == s.events && reached <= s.rows.Keys
      && SentFor(s.rows, reached, now, s.sent, s'.sent)
  }

  // ---- The service ----------------------------------------------------------------------------

  class Service {
    var rows: map<Id, Row>
    var events: seq<Event>
    var sent: multiset<Message>

    function Now(): State
      reads this
    {
      State(rows, events, sent)
    }

    constructor ()
      ensures Now() == Empty
    {
      rows, events, sent := map[], [], multiset{};
    }

    method CreateApproval(id: Id, action: Action, tier: int, payload: Payload, now: Time, expiresIn: int)
      requires id !in rows
      modifies this
      ensures Next(old(Now()), Create(id, action, tier, payload, now, expiresIn), Now())
      ensures rows == old(rows)[id := Row(action, tier, payload, now, now + expiresIn, Pending, None, None, None, false, false)]
      ensures events == old(events) + [Requested(id, tier, now + expiresIn)] && sent == old(sent)
    {
      var expires := now + expiresIn;
      rows := rows[id := Row(action, tier, payload, now, expires, Pending, None, None, None, false, false)];
      events := events + [Requested(id, tier, expires)];
    }

    /** `resolve`: replay, expire, or decide once; an edit that raises the tier turns into a refusal. */
    method ResolveApproval(id: Id, ask: Ask, engine: Engine, now: Time, keep: bool) returns (answer: Answer)
      modifies this
      ensures Next(old(Now()), Resolve(id, ask, engine, now, keep), Now())
      ensures answer == if id in old(rows) then ResolveAnswer(old(rows)[id], ask, engine, now) else NotFound
    {
      if id !in rows { return NotFound; }
      var row := rows[id];
      assert rows[id := row] == rows;
      if row.status != Pending {
        assert events + [] == events;
        return Result(row.status, row.tier, row.edited.Some?, true, row.note);
      }
      if row.expires <= now {
        if keep { rows := rows[id := row.(status := Expired)]; }
        assert old(events) + [] == events;
        return Gone;
      }
      var status := if ask.approve then Approved else Rejected;
      var (tier, note, reason) := (row.tier, ask.note, ask.reason);
      if ask.approve && ask.edited.Some? {
        var newTier := engine(row.action, ask.edited.value);
        if newTier > row.tier {
          status := Rejected;
          reason := ReasonOr(reason);
          note := Some(EscalatedNote(row.tier, newTier));
          tier := newTier;
        }
      }
      rows := rows[id := row.(status := status, edited := ask.edited, note := note, reason := reason)];
      events := events + [Resolved(id, status == Approved, ask.edited.Some?)];
      answer := Result(status, tier, ask.edited.Some?, false, note);
    }

    /** `notify_approval` for a ladder rung: the message leaves, then its stamp is set. */
    method Notify(id: Id, kind: Kind)
      requires id in rows
      modifies this`rows, this`sent
      ensures rows == old(rows)[id := if kind == Remind then old(rows)[id].(reminded := true) else old(rows)[id].(escalated := true)]
      ensures sent == old(sent) + multiset{Message(id, kind)}
    {
      sent := sent + multiset{Message(id, kind)};
      rows := rows[id := if kind == Remind then rows[id].(reminded := true) else rows[id].(escalated := true)];
    }

    /** One turn of the ladder's loop. */
    method Climb(id: Id, now: Time)
      requires id in rows && rows[id].status == Pending
      modifies this`rows, this`sent
      ensures rows == old(rows)[id := Advance(old(rows)[id], now)]
      ensures forall m :: sent[m] == old(sent)[m] + if m.id == id && Sends(old(rows), now, m) then 1 else 0
    {
      var row := rows[id];
      var (window, elapsed) := (row.expires - row.created, now - row.created);
      if now >= row.expires {
        rows := rows[id := row.(status := Expired)];
      } else if !row.escalated && 4 * elapsed >= 3 * window {
        Notify(id, Escalate);
      } else if !row.reminded && 2 * elapsed >= window {
        Notify(id, Remind);
      }
    }

    /** `_ladder_for_org`: the pending rows, in whatever order the query returns them. */
    method RunLadder(now: Time)
      modifies this`rows, this`sent
      ensures Next(old(Now()), Ladder(now), Now())
    {
      var todo := set id | id in rows && rows[id].status == Pending;
      ghost var seen := {};
      while todo != {}
        invariant todo !! seen && rows.Keys == old(rows).Keys
        invariant forall id :: id in old(rows) && old(rows)[id].status == Pending <==> id in todo || id in seen
        invariant forall id :: id in rows ==> rows[id] == if id in seen then Advance(old(rows)[id], now) else old(rows)[id]
        invariant SentFor(old(rows), seen, now, old(sent), sent)
        decreases todo
      {
        var id :| id in todo;
        Climb(id, now);
        todo := todo - {id};
        seen := seen + {id};
      }
    }
  }
}
