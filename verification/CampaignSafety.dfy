/** The rolling-hour bound and the per-recipient status machine, over every run of a campaign. */
module CampaignSafety {
  import opened Wrappers
  import opened Campaign

  // ---- Counting -------------------------------------------------------------------------------

  lemma {:induction false} CountUpdate(rows: seq<Send>, i: nat, r: Send, p: Send -> bool)
    requires i < |rows|
    ensures Count(rows[i := r], p) == Count(rows, p) - (if p(rows[i]) then 1 else 0) + (if p(r) then 1 else 0)
  {
    var n := |rows| - 1;
    if i < n {
      CountUpdate(rows[..n], i, r, p);
      assert rows[i := r][..n] == rows[..n][i := r];
    } else {
      assert rows[i := r][..n] == rows[..n];
    }
  }

  lemma CountNext(rows: seq<Send>, r: Send, p: Send -> bool)
    ensures Count(rows + [r], p) == Count(rows, p) + if p(r) then 1 else 0
  {
    assert (rows + [r])[..|rows|] == rows;
  }

  lemma {:induction false} CountWeaker(rows: seq<Send>, p: Send -> bool, q: Send -> bool)
    requires forall r :: r in rows && p(r) ==> q(r)
    ensures Count(rows, p) <= Count(rows, q)
  {
    if rows != [] {
      CountWeaker(rows[..|rows| - 1], p, q);
      assert rows[|rows| - 1] in rows;
    }
  }

  lemma {:induction false} FourCounts(rows: seq<Send>)
    ensures Count(rows, Is(Queued)) + Count(rows, Is(Sent)) + Count(rows, Is(Failed)) + Count(rows, Is(Skipped)) == |rows|
  {
    if rows != [] { FourCounts(rows[..|rows| - 1]); }
  }

  lemma {:induction false} QueueListsQueued(rows: seq<Send>)
    ensures |Queue(rows)| == Count(rows, Is(Queued))
    ensures forall k :: 0 <= k < |Queue(rows)| ==> Queue(rows)[k] < |rows| && rows[Queue(rows)[k]].status == Queued
    ensures forall j, k :: 0 <= j < k < |Queue(rows)| ==> Queue(rows)[j] < Queue(rows)[k]
  {
    if rows != [] { QueueListsQueued(rows[..|rows| - 1]); }
  }

  // ---- The invariant --------------------------------------------------------------------------

  /** Exactly the sent rows carry a time, and none from the future. */
  predicate Stamped(s: State) {
    forall i :: 0 <= i < |s.rows| ==>
      (s.rows[i].sentAt.Some? <==> s.rows[i].status == Sent) && (s.rows[i].sentAt.Some? ==> s.rows[i].sentAt.value <= s.clock)
  }

  predicate OnePerContact(rows: seq<Send>) {
    forall i, j :: 0 <= i < j < |rows| ==> rows[i].contact != rows[j].contact
  }

  /** What a running batch still has to send is queued, distinct, and within the budget it computed. */
  predicate Budgeted(s: State) {
    s.batch.Some? ==>
      var b := s.batch.value;
      && b.start <= s.clock
      && (forall k :: 0 <= k < |b.todo| ==> b.todo[k] < |s.rows| && s.rows[b.todo[k]].status == Queued)
      && (forall j, k :: 0 <= j < k < |b.todo| ==> b.todo[j] < b.todo[k])
      && (b.todo != [] ==> Count(s.rows, SentSince(b.start - HOUR)) + |b.todo| <= HOURLY_RATE)
  }

  function InHourTo(t: Time): Send -> bool {
    (r: Send) => r.sentAt.Some? && t - HOUR < r.sentAt.value <= t
  }

  ghost predicate Throttled(rows: seq<Send>) {
    forall t :: Count(rows, InHourTo(t)) <= HOURLY_RATE
  }

  ghost predicate Inv(s: State) {
    Stamped(s) && OnePerContact(s.rows) && Budgeted(s) && Throttled(s.rows)
  }

  lemma BeginKeeps(s: State, gate: Gate)
    requires Inv(s) && s.batch.None?
    ensures Inv(AfterBegin(s, gate))
  {
    QueueListsQueued(s.rows);
  }

  lemma SendThrottled(rows: seq<Send>, i: nat, r: Send, start: Time, now: Time)
    requires i < |rows| && rows[i].sentAt.None? && Throttled(rows)
    requires r.sentAt.None? || (r.sentAt.value == now && start <= now)
    requires Count(rows, SentSince(start - HOUR)) < HOURLY_RATE
    ensures Throttled(rows[i := r])
  {
    forall t ensures Count(rows[i := r], InHourTo(t)) <= HOURLY_RATE {
      CountUpdate(rows, i, r, InHourTo(t));
      if r.sentAt.Some? && t >= now {
        CountWeaker(rows, InHourTo(t), SentSince(start - HOUR));
      }
    }
  }

  lemma SendKeeps(s: State, o: Outcome)
    requires Inv(s) && Enabled(s, SendNext(o))
    ensures Inv(Next(s, SendNext(o)))
  {
    var (b, i) := (s.batch.value, s.batch.value.todo[0]);
    var r := Answered(s.rows[i], o, s.clock);
    CountUpdate(s.rows, i, r, SentSince(b.start - HOUR));
    SendThrottled(s.rows, i, r, b.start, s.clock);
  }

  lemma {:induction false} SetupKeeps(rows: seq<Send>, audience: seq<Contact>)
    requires OnePerContact(rows)
    ensures var m := Materialised(rows, audience);
            && OnePerContact(m) && |rows| <= |m| && m[..|rows|] == rows
            && forall i :: |rows| <= i < |m| ==> m[i] == Send(m[i].contact, Queued, None, None)
    ensures forall p: Send -> bool :: (forall c :: !p(Send(c, Queued, None, None))) ==>
              Count(Materialised(rows, audience), p) == Count(rows, p)
  {
    if audience != [] {
      var (init, c) := (audience[..|audience| - 1], audience[|audience| - 1]);
      SetupKeeps(rows, init);
      var before := Materialised(rows, init);
      forall p: Send -> bool | forall d :: !p(Send(d, Queued, None, None))
        ensures Count(Materialised(rows, audience), p) == Count(rows, p)
      {
        CountNext(before, Send(c, Queued, None, None), p);
      }
    }
  }

  lemma SetupKeepsInv(s: State, audience: seq<Contact>)
    requires Inv(s) && Enabled(s, Setup(audience))
    ensures Inv(Next(s, Setup(audience)))
  {
    SetupKeeps(s.rows, audience);
    var s' := Next(s, Setup(audience));
    assert forall i :: 0 <= i < |s.rows| ==> s'.rows[i] == s'.rows[..|s.rows|][i];
    forall t ensures Count(s'.rows, InHourTo(t)) <= HOURLY_RATE {
      assert Count(s'.rows, InHourTo(t)) == Count(s.rows, InHourTo(t));
    }
  }

  lemma KeepsInv(s: State, a: Step)
    requires Inv(s) && Enabled(s, a)
    ensures Inv(Next(s, a))
  {
    match a
    case Setup(audience) => SetupKeepsInv(s, audience);
    case Begin(gate) => BeginKeeps(s, gate);
    case SendNext(o) => SendKeeps(s, o);
    case _ =>
  }

  lemma {:induction false} RunKeepsInv(now: Time, steps: seq<Step>)
    requires Runs(Initial(now), steps)
    ensures Inv(Exec(Initial(now), steps))
    decreases |steps|
  {
    if steps != [] {
      RunKeepsInv(now, steps[..|steps| - 1]);
      KeepsInv(Exec(Initial(now), steps[..|steps| - 1]), steps[|steps| - 1]);
    }
  }

  /** At no instant, past or present, has a campaign more than 500 rows sent in the preceding hour. */
  lemma NeverMoreThanTheHourlyRate(now: Time, steps: seq<Step>, t: Time)
    requires Runs(Initial(now), steps)
    ensures Count(Exec(Initial(now), steps).rows, InHourTo(t)) <= HOURLY_RATE
  {
    RunKeepsInv(now, steps);
  }

  // ---- One recipient --------------------------------------------------------------------------

  /** Rows are never lost or reordered, keep their contact, and change only from queued. */
  predicate Later(rows: seq<Send>, rows': seq<Send>) {
    && |rows| <= |rows'|
    && forall i :: 0 <= i < |rows| ==>
         rows'[i].contact == rows[i].contact && (rows[i].status != Queued ==> rows'[i] == rows[i])
  }

  lemma StepIsLater(s: State, a: Step)
    requires Inv(s) && Enabled(s, a)
    ensures Later(s.rows, Next(s, a).rows)
  {
    if a.Setup? {
      SetupKeeps(s.rows, a.audience);
      var m := Materialised(s.rows, a.audience);
      assert forall i :: 0 <= i < |s.rows| ==> m[i] == m[..|s.rows|][i];
    }
  }

  /** A settled recipient is never touched again, and no contact gets a second row. */
  lemma {:induction false} SettledForever(now: Time, steps: seq<Step>, n: nat)
    requires Runs(Initial(now), steps) && n <= |steps|
    ensures Runs(Initial(now), steps[..n])
    ensures Later(Exec(Initial(now), steps[..n]).rows, Exec(Initial(now), steps).rows)
    ensures OnePerContact(Exec(Initial(now), steps).rows)
    decreases |steps|
  {
    RunKeepsInv(now, steps);
    if n < |steps| {
      var init := steps[..|steps| - 1];
      assert init[..n] == steps[..n];
      SettledForever(now, init, n);
      RunKeepsInv(now, init);
      StepIsLater(Exec(Initial(now), init), steps[|steps| - 1]);
    } else {
      assert steps[..n] == steps;
    }
  }

  // ---- Nobody is lost -------------------------------------------------------------------------

  function Members(audience: seq<Contact>): set<Contact> { set c | c in audience }

  function ContactsOf(rows: seq<Send>): set<Contact> { set i | 0 <= i < |rows| :: rows[i].contact }

  /** Everyone in an audience that a set-up of the run materialised. */
  function Targeted(s: State, steps: seq<Step>): set<Contact>
    requires Runs(s, steps)
    decreases |steps|
  {
    if steps == [] then {}
    else
      var (init, a) := (steps[..|steps| - 1], steps[|steps| - 1]);
      Targeted(s, init)
      + if a.Setup? && Exec(s, init).phase in {PendingApproval, Executing} then Members(a.audience) else {}
  }

  lemma {:induction false} MaterialisedContacts(rows: seq<Send>, audience: seq<Contact>)
    ensures ContactsOf(Materialised(rows, audience)) == ContactsOf(rows) + Members(audience)
  {
    if audience != [] {
      var (init, c) := (audience[..|audience| - 1], audience[|audience| - 1]);
      MaterialisedContacts(rows, init);
      assert audience == init + [c];
      var (before, after) := (Materialised(rows, init), Materialised(rows, audience));
      if Has(before, c) {
        var i :| 0 <= i < |before| && before[i].contact == c;
        assert c in ContactsOf(before);
      } else {
        ContactsAppend(before, Send(c, Queued, None, None));
      }
    }
  }

  lemma ContactsAppend(rows: seq<Send>, r: Send)
    ensures ContactsOf(rows + [r]) == ContactsOf(rows) + {r.contact}
  {
    var all := rows + [r];
    assert all[|rows|] == r;
    forall c ensures c in ContactsOf(all) <==> c in ContactsOf(rows) || c == r.contact {
      if c in ContactsOf(rows) {
        var i :| 0 <= i < |rows| && rows[i].contact == c;
        assert all[i].contact == c;
      }
    }
  }

  lemma StepContacts(s: State, a: Step)
    requires Inv(s) && Enabled(s, a)
    ensures ContactsOf(Next(s, a).rows)
         == ContactsOf(s.rows) + if a.Setup? && s.phase in {PendingApproval, Executing} then Members(a.audience) else {}
  {
    if a.Setup? {
      MaterialisedContacts(s.rows, a.audience);
    } else {
      StepIsLater(s, a);
      var (x, y) := (s.rows, Next(s, a).rows);
      assert |x| == |y| && forall i :: 0 <= i < |x| ==> x[i].contact == y[i].contact;
    }
  }

  lemma {:induction false} DistinctContacts(rows: seq<Send>)
    requires OnePerContact(rows)
    ensures |ContactsOf(rows)| == |rows|
  {
    if rows != [] {
      var (init, r) := (rows[..|rows| - 1], rows[|rows| - 1]);
      DistinctContacts(init);
      assert rows == init + [r];
      ContactsAppend(init, r);
      assert r.contact !in ContactsOf(init);
    }
  }

  lemma {:induction false} RowsAreTheTargets(now: Time, steps: seq<Step>)
    requires Runs(Initial(now), steps)
    ensures ContactsOf(Exec(Initial(now), steps).rows) == Targeted(Initial(now), steps)
    decreases |steps|
  {
    if steps != [] {
      var init := steps[..|steps| - 1];
      RowsAreTheTargets(now, init);
      RunKeepsInv(now, init);
      StepContacts(Exec(Initial(now), init), steps[|steps| - 1]);
    }
  }

  /**
    After any run, through failures, crashes and repeated set-ups, queued, sent, failed and skipped
    add up to the number of contacts ever targeted: each has its one row.
   */
  lemma NothingLost(now: Time, steps: seq<Step>)
    requires Runs(Initial(now), steps)
    ensures var rows := Exec(Initial(now), steps).rows;
            && ContactsOf(rows) == Targeted(Initial(now), steps)
            && Count(rows, Is(Queued)) + Count(rows, Is(Sent)) + Count(rows, Is(Failed)) + Count(rows, Is(Skipped))
                 == |Targeted(Initial(now), steps)|
  {
    var rows := Exec(Initial(now), steps).rows;
    RunKeepsInv(now, steps);
    RowsAreTheTargets(now, steps);
    DistinctContacts(rows);
    FourCounts(rows);
  }
}
