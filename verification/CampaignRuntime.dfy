/**
  The set-up and the batch, loop by loop.  Each call is a run of the transition system, and a
  batch's effect has a closed form from which the draining of the queue follows.
 */
module CampaignRuntime {
  import opened Wrappers
  import opened Campaign
  import opened CampaignSafety

  /** What one batch meets: when its n-th send happens, and what `send` does with each row. */
  datatype Weather = Weather(at: nat -> Time, answer: nat -> Outcome)

  ghost predicate Steady(now: Time, w: Weather) {
    now <= w.at(0) && forall k: nat :: w.at(k) <= w.at(k + 1)
  }

  /** How many of the picked rows are attempted with an answer before one raises. */
  function Reached(picks: seq<nat>, w: Weather): (n: nat)
    ensures n <= |picks|
  {
    if picks == [] || w.answer(picks[0]).Raised? then 0 else 1 + Reached(picks[1..], w)
  }

  predicate InRange(picks: seq<nat>, rows: seq<Send>) { forall k :: 0 <= k < |picks| ==> picks[k] < |rows| }

  /** The rows after the first `n` picked ones have been answered. */
  function SendAll(rows: seq<Send>, picks: seq<nat>, w: Weather, n: nat): (r: seq<Send>)
    requires n <= |picks| && InRange(picks, rows)
    ensures |r| == |rows|
  {
    if n == 0 then rows
    else
      var (before, i) := (SendAll(rows, picks, w, n - 1), picks[n - 1]);
      before[i := Answered(before[i], w.answer(i), w.at(n - 1))]
  }

  function Picked(s: State): (p: seq<nat>)
    ensures InRange(p, s.rows)
  {
    QueueListsQueued(s.rows);
    Picks(s.rows, s.clock)
  }

  function AfterBatch(s: State, gate: Gate, w: Weather): State {
    var b := AfterBegin(s, gate);
    if s.batch.Some? || b.batch.None? then b
    else
      var (picks, n) := (Picked(s), Reached(Picked(s), w));
      var sent := s.(rows := SendAll(s.rows, picks, w, n), clock := if n == 0 then s.clock else w.at(n - 1));
      if n == |picks| then Closed(sent) else sent
  }

  class Sender {
    var phase: Phase
    var rows: seq<Send>
    var clock: Time
    var announced: seq<Counts>

    function Now(): State
      reads this
    {
      State(phase, rows, clock, None, announced)
    }

    constructor (now: Time)
      ensures Now() == Initial(now)
    {
      phase, rows, clock, announced := Draft, [], now, [];
    }

    /** `setup_campaign_execution`: true when there is something to fan out. */
    method SetupExecution(audience: seq<Contact>) returns (work: bool)
      modifies this`phase, this`rows
      ensures Now() == Next(old(Now()), Setup(audience))
      ensures work == (old(phase) in {PendingApproval, Executing}) && phase == (if work then Executing else old(phase))
    {
      if phase !in {PendingApproval, Executing} { return false; }
      for k := 0 to |audience|
        invariant rows == Materialised(old(rows), audience[..k])
      {
        assert audience[..k + 1][..k] == audience[..k];
        if !exists i :: 0 <= i < |rows| && rows[i].contact == audience[k] {
          rows := rows + [Send(audience[k], Queued, None, None)];
        }
      }
      assert audience[..|audience|] == audience;
      phase := Executing;
      return true;
    }

    /** `_send_one` */
    method SendOne(i: nat, o: Outcome) returns (ok: bool)
      requires i < |rows|
      modifies this`rows
      ensures rows == old(rows)[i := Answered(old(rows)[i], o, clock)] && ok == !o.Raised?
      ensures var r := old(rows)[i];
              match o
              case Delivered => rows == old(rows)[i := Send(r.contact, Sent, None, Some(clock))]
              case NotSent => rows == old(rows)[i := Send(r.contact, Failed, Some("not_sent"), r.sentAt)]
              case Refused(code) =>
                var skipped := code == "suppressed_contact" || code == "consent_missing";
                rows == old(rows)[i := Send(r.contact, if skipped then Skipped else Failed, Some(code), r.sentAt)]
              case Raised => rows == old(rows)
    {
      if o.Raised? {
        assert rows[i := rows[i]] == rows;
        return false;
      }
      var (status, reason) := (Failed, Some("unknown"));
      if o.Delivered? {
        status, reason := Sent, None;
      } else if o.NotSent? {
        reason := Some("not_sent");
      } else {
        status, reason := if o.code in SKIP_CODES then Skipped else Failed, Some(o.code);
      }
      rows := rows[i := Send(rows[i].contact, status, reason, if status == Sent then Some(clock) else rows[i].sentAt)];
      return true;
    }

    /** The batch's loop; an exception in one send ends it there. */
    method SendPicked(picks: seq<nat>, w: Weather) returns (n: nat)
      requires InRange(picks, rows)
      modifies this`rows, this`clock
      ensures n == Reached(picks, w) && rows == SendAll(old(rows), picks, w, n)
      ensures clock == if n == 0 then old(clock) else w.at(n - 1)
    {
      n := 0;
      while n < |picks|
        invariant n <= |picks| && |rows| == |old(rows)| && Reached(picks, w) == n + Reached(picks[n..], w)
        invariant rows == SendAll(old(rows), picks, w, n)
        invariant clock == if n == 0 then old(clock) else w.at(n - 1)
      {
        var before := clock;
        clock := w.at(n);
        var ok := SendOne(picks[n], w.answer(picks[n]));
        if !ok {
          clock := before;
          assert rows == SendAll(old(rows), picks, w, n);
          return;
        }
        assert picks[n..][1..] == picks[n + 1..];
        n := n + 1;
      }
    }

    /** `process_campaign_batch` */
    method ProcessBatch(gate: Gate, w: Weather) returns (raised: bool)
      modifies this
      ensures Now() == AfterBatch(old(Now()), gate, w)
      ensures raised <==> AfterBegin(old(Now()), gate).batch.Some? && Reached(Picked(old(Now())), w) < |Picked(old(Now()))|
    {
      ghost var s := Now();
      var halt := HaltReason(rows, gate);
      if halt.Some? {
        phase := Halted(halt.value);
        return false;
      }
      if phase != Executing { return false; }
      if !gate.channel {
        phase := Halted("no active WhatsApp channel");
        return false;
      }
      var picks := Picked(Now());
      var n := SendPicked(picks, w);
      if n < |picks| { return true; }
      if Count(rows, Is(Queued)) == 0 {
        phase := Executed;
        announced := announced + [Counts(Count(rows, Is(Sent)), Count(rows, Is(Failed)))];
      }
      return false;
    }
  }

  // ---- A batch is a run -----------------------------------------------------------------------

  lemma RunsOn(s: State, steps: seq<Step>, a: Step)
    requires Runs(s, steps) && Enabled(Exec(s, steps), a)
    ensures Runs(s, steps + [a]) && Exec(s, steps + [a]) == Next(Exec(s, steps), a)
  {
    assert (steps + [a])[..|steps|] == steps;
  }

  function During(s: State, picks: seq<nat>, w: Weather, n: nat): State
    requires n <= |picks| && InRange(picks, s.rows)
  {
    s.(rows := SendAll(s.rows, picks, w, n), clock := if n == 0 then s.clock else w.at(n - 1),
       batch := Some(Batch(s.clock, picks[n..])))
  }

  lemma {:induction false} SendsAreARun(s: State, gate: Gate, w: Weather, n: nat) returns (steps: seq<Step>)
    requires s.batch.None? && AfterBegin(s, gate).batch.Some? && Steady(s.clock, w) && n <= Reached(Picked(s), w)
    ensures Runs(s, steps) && Exec(s, steps) == During(s, Picked(s), w, n)
  {
    var picks := Picked(s);
    if n == 0 {
      assert Runs(s, []);
      RunsOn(s, [], Begin(gate));
      steps := [] + [Begin(gate)];
      assert picks[0..] == picks;
    } else {
      var init := SendsAreARun(s, gate, w, n - 1);
      var i := picks[n - 1];
      ReachedAnswer(picks, w, n - 1);
      RunsOn(s, init, Tick(w.at(n - 1)));
      var ticked := init + [Tick(w.at(n - 1))];
      assert picks[n - 1..][0] == i && picks[n - 1..][1..] == picks[n..];
      RunsOn(s, ticked, SendNext(w.answer(i)));
      steps := ticked + [SendNext(w.answer(i))];
    }
  }

  lemma {:induction false} ReachedAnswer(picks: seq<nat>, w: Weather, k: nat)
    requires k < Reached(picks, w)
    ensures !w.answer(picks[k]).Raised?
  {
    if k > 0 { ReachedAnswer(picks[1..], w, k - 1); }
  }

  /** Every batch, complete or cut short by an exception, is a run: its results inherit every bound. */
  lemma BatchIsARun(s: State, gate: Gate, w: Weather) returns (steps: seq<Step>)
    requires s.batch.None? && Steady(s.clock, w)
    ensures Runs(s, steps) && Exec(s, steps) == AfterBatch(s, gate, w)
  {
    if AfterBegin(s, gate).batch.None? {
      assert Runs(s, []);
      RunsOn(s, [], Begin(gate));
      steps := [] + [Begin(gate)];
    } else {
      var (picks, n) := (Picked(s), Reached(Picked(s), w));
      var init := SendsAreARun(s, gate, w, n);
      var last := if n == |picks| then End else Crash;
      RunsOn(s, init, last);
      steps := init + [last];
    }
  }

  // ---- One batch's share of the queue ---------------------------------------------------------

  ghost predicate Answers(w: Weather) { forall i: nat :: !w.answer(i).Raised? }

  lemma {:induction false} AllReached(picks: seq<nat>, w: Weather)
    requires Answers(w)
    ensures Reached(picks, w) == |picks|
  {
    if picks != [] { AllReached(picks[1..], w); }
  }

  /** Answering the first `n` picked rows takes exactly those off the queue. */
  lemma {:induction false} SendAllDrains(s: State, w: Weather, n: nat)
    requires Answers(w) && n <= |Picked(s)|
    ensures Count(SendAll(s.rows, Picked(s), w, n), Is(Queued)) == Count(s.rows, Is(Queued)) - n
    ensures forall k :: n <= k < |Picked(s)| ==> SendAll(s.rows, Picked(s), w, n)[Picked(s)[k]] == s.rows[Picked(s)[k]]
  {
    QueueListsQueued(s.rows);
    if n > 0 {
      SendAllDrains(s, w, n - 1);
      var (before, i) := (SendAll(s.rows, Picked(s), w, n - 1), Picked(s)[n - 1]);
      CountUpdate(before, i, Answered(before[i], w.answer(i), w.at(n - 1)), Is(Queued));
    }
  }

  /** A batch with answering sends takes its whole budget off the queue, and ends the campaign with it. */
  lemma BatchDrains(s: State, gate: Gate, w: Weather)
    requires s.batch.None? && AfterBegin(s, gate).batch.Some? && Answers(w)
    ensures var (q, s') := (Count(s.rows, Is(Queued)), AfterBatch(s, gate, w));
            && Count(s'.rows, Is(Queued)) == q - Min(Budget(s.rows, s.clock), q) && s'.batch.None?
            && s'.phase == (if Count(s'.rows, Is(Queued)) == 0 then Executed else Executing)
  {
    QueueListsQueued(s.rows);
    AllReached(Picked(s), w);
    SendAllDrains(s, w, |Picked(s)|);
  }

  // ---- Turns ----------------------------------------------------------------------------------

  /** One batch of a schedule: when it starts, what its gate shows, what its sends meet. */
  datatype Turn = Turn(start: Time, gate: Gate, weather: Weather)

  function Wait(s: State, now: Time): State { s.(clock := now) }

  function AfterTurn(s: State, t: Turn): State { AfterBatch(Wait(s, t.start), t.gate, t.weather) }

  function AfterTurns(s: State, turns: seq<Turn>): State {
    if turns == [] then s else AfterTurn(AfterTurns(s, turns[..|turns| - 1]), turns[|turns| - 1])
  }

  /** The turn starts after what came before, its signals are quiet and all its sends are answered. */
  ghost predicate Goes(s: State, t: Turn) {
    && s.clock <= t.start && Steady(t.start, t.weather) && Answers(t.weather)
    && HaltReason(s.rows, t.gate).None? && t.gate.channel
  }

  ghost predicate AllGo(s: State, turns: seq<Turn>) {
    turns == [] || (AllGo(s, turns[..|turns| - 1]) && Goes(AfterTurns(s, turns[..|turns| - 1]), turns[|turns| - 1]))
  }

  function Waiting(s: State): nat { Count(s.rows, Is(Queued)) }

  /** A campaign being fanned out, or one that its last batch has just finished. */
  predicate Active(s: State) { s.batch.None? && (s.phase == Executing || (s.phase == Executed && Waiting(s) == 0)) }

  /** Each turn takes its budget off the queue, or all that is left, and ends the campaign with it. */
  lemma TurnDrains(s: State, t: Turn)
    requires Active(s) && Goes(s, t)
    ensures var s' := AfterTurn(s, t);
            && Active(s') && Waiting(s') == Waiting(s) - Min(Budget(s.rows, t.start), Waiting(s))
            && s'.phase == (if Waiting(s') == 0 then Executed else Executing)
  {
    if s.phase == Executing { BatchDrains(Wait(s, t.start), t.gate, t.weather); }
  }

  function TotalBudget(s: State, turns: seq<Turn>): nat {
    if turns == [] then 0
    else
      var init := turns[..|turns| - 1];
      TotalBudget(s, init) + Budget(AfterTurns(s, init).rows, turns[|turns| - 1].start)
  }

  /**
    Over any turns the queue falls by the sum of their budgets; it is empty, and the campaign
    executed, exactly once the budgets sum to what was queued.
   */
  lemma {:induction false} BudgetsDrain(s: State, turns: seq<Turn>)
    requires Active(s) && AllGo(s, turns)
    ensures var s' := AfterTurns(s, turns);
            && Active(s') && Waiting(s') == Waiting(s) - Min(TotalBudget(s, turns), Waiting(s))
            && (turns != [] ==> (s'.phase == Executed <==> TotalBudget(s, turns) >= Waiting(s)))
  {
    if turns != [] {
      var init := turns[..|turns| - 1];
      BudgetsDrain(s, init);
      TurnDrains(AfterTurns(s, init), turns[|turns| - 1]);
    }
  }

  // ---- How large a budget is ------------------------------------------------------------------

  function Hits(rows: seq<Send>, p: Send -> bool): set<nat> { set i: nat | i < |rows| && p(rows[i]) }

  lemma {:induction false} CountIsHits(rows: seq<Send>, p: Send -> bool)
    ensures Count(rows, p) == |Hits(rows, p)|
  {
    if rows != [] {
      var n := |rows| - 1;
      CountIsHits(rows[..n], p);
      var before := Hits(rows[..n], p);
      assert n !in before && Hits(rows, p) == before + if p(rows[n]) then {n} else {};
    }
  }

  /** The rows whose time lies within the last hour. */
  function Recent(rows: seq<Send>, now: Time): set<nat> {
    set i: nat | i < |rows| && rows[i].sentAt.Some? && now - HOUR < rows[i].sentAt.value <= now
  }

  /**
    In every reachable state the budget is 500 less the rows sent in the last hour, never cut off at
    zero; so it is positive exactly while fewer than 500 rows carry a time in that hour.
   */
  lemma BudgetIs(s: State, now: Time)
    requires Inv(s) && s.clock <= now
    ensures Budget(s.rows, now) == HOURLY_RATE - |Recent(s.rows, now)|
    ensures Budget(s.rows, now) > 0 <==> |Recent(s.rows, now)| < HOURLY_RATE
  {
    var since := SentSince(now - HOUR);
    CountWeaker(s.rows, since, InHourTo(now));
    assert Count(s.rows, InHourTo(now)) <= HOURLY_RATE;
    CountIsHits(s.rows, since);
    assert Hits(s.rows, since) == Recent(s.rows, now);
  }

  lemma {:induction false} ExecKeepsInv(s: State, steps: seq<Step>)
    requires Inv(s) && Runs(s, steps)
    ensures Inv(Exec(s, steps))
    decreases |steps|
  {
    if steps != [] {
      ExecKeepsInv(s, steps[..|steps| - 1]);
      KeepsInv(Exec(s, steps[..|steps| - 1]), steps[|steps| - 1]);
    }
  }

  lemma TurnKeepsInv(s: State, t: Turn)
    requires Inv(s) && s.batch.None? && Goes(s, t)
    ensures Inv(AfterTurn(s, t)) && AfterTurn(s, t).batch.None?
  {
    KeepsInv(s, Tick(t.start));
    var steps := BatchIsARun(Wait(s, t.start), t.gate, t.weather);
    ExecKeepsInv(Wait(s, t.start), steps);
  }

  // ---- Turns an hour apart --------------------------------------------------------------------

  /** `n` answers add at most `n` rows to any count. */
  lemma {:induction false} SendAllAdds(rows: seq<Send>, picks: seq<nat>, w: Weather, n: nat, p: Send -> bool)
    requires n <= |picks| && InRange(picks, rows)
    ensures Count(SendAll(rows, picks, w, n), p) <= Count(rows, p) + n
  {
    if n > 0 {
      SendAllAdds(rows, picks, w, n - 1, p);
      var (before, i) := (SendAll(rows, picks, w, n - 1), picks[n - 1]);
      CountUpdate(before, i, Answered(before[i], w.answer(i), w.at(n - 1)), p);
    }
  }

  lemma {:induction false} NoneSince(rows: seq<Send>, t: Time)
    requires forall i :: 0 <= i < |rows| && rows[i].sentAt.Some? ==> rows[i].sentAt.value <= t
    ensures Count(rows, SentSince(t)) == 0
  {
    if rows != [] { NoneSince(rows[..|rows| - 1], t); }
  }

  /** What a turn takes off the queue is at least what an hour later still counts against the budget. */
  lemma TurnLeavesRoom(s: State, t: Turn, later: Time)
    requires Inv(s) && s.phase == Executing && s.batch.None? && Goes(s, t) && later >= t.start + HOUR
    ensures Budget(AfterTurn(s, t).rows, later) >= HOURLY_RATE - Min(Budget(s.rows, t.start), Waiting(s))
  {
    var before := Wait(s, t.start);
    var picks := Picked(before);
    QueueListsQueued(s.rows);
    AllReached(picks, t.weather);
    NoneSince(s.rows, t.start);
    SendAllAdds(s.rows, picks, t.weather, |picks|, SentSince(t.start));
    CountWeaker(AfterTurn(s, t).rows, SentSince(later - HOUR), SentSince(t.start));
  }

  /** Any two consecutive turns an hour apart remove 500 rows between them, or all that are left. */
  lemma TwoTurns(s: State, t: Turn, u: Turn)
    requires Inv(s) && Active(s) && Goes(s, t) && Goes(AfterTurn(s, t), u) && u.start >= t.start + HOUR
    ensures Waiting(AfterTurn(AfterTurn(s, t), u)) <= Waiting(s) - Min(HOURLY_RATE, Waiting(s))
  {
    TurnDrains(s, t);
    TurnDrains(AfterTurn(s, t), u);
    if s.phase == Executing { TurnLeavesRoom(s, t, u.start); }
  }

  /** The scheduler's cadence: each turn starts an hour or more after the one before. */
  predicate Hourly(turns: seq<Turn>) {
    forall k :: 0 <= k < |turns| - 1 ==> turns[k + 1].start >= turns[k].start + HOUR
  }

  lemma {:induction false} TurnsKeepInv(s: State, turns: seq<Turn>)
    requires Inv(s) && Active(s) && AllGo(s, turns)
    ensures Inv(AfterTurns(s, turns)) && Active(AfterTurns(s, turns))
  {
    if turns != [] {
      var init := turns[..|turns| - 1];
      TurnsKeepInv(s, init);
      TurnKeepsInv(AfterTurns(s, init), turns[|turns| - 1]);
      TurnDrains(AfterTurns(s, init), turns[|turns| - 1]);
    }
  }

  lemma LastTwo(s: State, turns: seq<Turn>, n: nat)
    requires |turns| == n + 2 && AllGo(s, turns)
    ensures AllGo(s, turns[..n])
    ensures var b := AfterTurns(s, turns[..n]);
            && Goes(b, turns[n]) && Goes(AfterTurn(b, turns[n]), turns[n + 1])
            && AfterTurns(s, turns) == AfterTurn(AfterTurn(b, turns[n]), turns[n + 1])
  {
    var rest := turns[..n + 1];
    assert rest[..n] == turns[..n] && rest[n] == turns[n] && turns[..|turns| - 1] == rest;
    assert AllGo(s, rest);
    assert AfterTurns(s, rest) == AfterTurn(AfterTurns(s, turns[..n]), turns[n]);
  }

  /** Every two of them 500 rows: how many `n` hourly turns are sure to remove. */
  function Sure(n: nat): nat { if n < 2 then 0 else Sure(n - 2) + HOURLY_RATE }

  lemma {:induction false} SureIs(n: nat)
    ensures Sure(n) == n / 2 * HOURLY_RATE
  {
    if n >= 2 {
      SureIs(n - 2);
      assert n / 2 == (n - 2) / 2 + 1;
    }
  }

  lemma {:induction false} HourlyTurnsRemove(s: State, turns: seq<Turn>)
    requires Inv(s) && Active(s) && AllGo(s, turns) && Hourly(turns)
    ensures Waiting(AfterTurns(s, turns)) <= Waiting(s) - Min(Sure(|turns|), Waiting(s))
  {
    if |turns| < 2 {
      BudgetsDrain(s, turns);
    } else {
      var n := |turns| - 2;
      LastTwo(s, turns, n);
      HourlyTurnsRemove(s, turns[..n]);
      TurnsKeepInv(s, turns[..n]);
      TwoTurns(AfterTurns(s, turns[..n]), turns[n], turns[n + 1]);
    }
  }

  /**
    Hourly turns, each taking as long as it likes before the next, remove at least 500 rows every
    two hours until the queue is empty and the campaign executed.
   */
  lemma HourlyBatchesDrain(s: State, turns: seq<Turn>)
    requires Inv(s) && Active(s) && AllGo(s, turns) && Hourly(turns)
    ensures var (s', sent) := (AfterTurns(s, turns), |turns| / 2 * HOURLY_RATE);
            && Active(s') && Waiting(s') <= Waiting(s) - Min(sent, Waiting(s))
            && (turns != [] && sent >= Waiting(s) ==> s'.phase == Executed)
  {
    SureIs(|turns|);
    HourlyTurnsRemove(s, turns);
    BudgetsDrain(s, turns);
  }
}
