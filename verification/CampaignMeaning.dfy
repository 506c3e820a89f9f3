/**
  What one batch does, row by row and gate by gate, said of the rows, the gate and the weather
  themselves.
 */
module CampaignMeaning {
  import opened Wrappers
  import opened Campaign
  import opened CampaignSafety
  import opened CampaignRuntime

  function With(rows: seq<Send>, d: Delivery): set<nat> { set i: nat | i < |rows| && rows[i].status == d }

  function Lost(rows: seq<Send>, gone: set<Contact>): set<nat> {
    set i: nat | i < |rows| && rows[i].status == Sent && rows[i].contact in gone
  }

  lemma CountWith(rows: seq<Send>, d: Delivery)
    ensures Count(rows, Is(d)) == |With(rows, d)|
  {
    CountIsHits(rows, Is(d));
    assert Hits(rows, Is(d)) == With(rows, d);
  }

  lemma CountLost(rows: seq<Send>, gone: set<Contact>)
    ensures Count(rows, OptedOut(gone)) == |Lost(rows, gone)|
  {
    CountIsHits(rows, OptedOut(gone));
    assert Hits(rows, OptedOut(gone)) == Lost(rows, gone);
  }

  /** The first of the gates that stops a batch, as the phase it leaves; `None` when there is none. */
  function Stopped(s: State, gate: Gate): Option<Phase> {
    var (sent, lost) := (|With(s.rows, Sent)|, |Lost(s.rows, gate.optedOut)|);
    if !gate.entitled then Some(Halted("entitlement_revoked"))
    else if sent >= 10 && lost * 10 > sent then Some(Halted("opt-out spike"))
    else if gate.rating == "red" || gate.rating == "low" then Some(Halted("WhatsApp quality rating"))
    else if s.phase != Executing then Some(s.phase)
    else if !gate.channel then Some(Halted("no active WhatsApp channel"))
    else None
  }

  /**
    A batch is stopped by a lost entitlement, by more than a tenth of ten or more recipients having
    opted out, by a bad rating, or for want of a channel, and then sends nothing; a campaign that is not
    executing is left as it is.
   */
  lemma BatchGates(s: State, gate: Gate, w: Weather)
    requires s.batch.None?
    ensures AfterBegin(s, gate).batch.None? <==> Stopped(s, gate).Some?
    ensures Stopped(s, gate).Some? ==> AfterBatch(s, gate, w) == s.(phase := Stopped(s, gate).value)
  {
    CountWith(s.rows, Sent);
    CountLost(s.rows, gate.optedOut);
  }

  // ---- Which rows are sent --------------------------------------------------------------------

  /** The queued rows before row `i`: those that were created earlier. */
  function Ahead(rows: seq<Send>, i: nat): set<nat> { set j: nat | j < i && j < |rows| && rows[j].status == Queued }

  lemma AheadNext(rows: seq<Send>, n: nat)
    requires n < |rows|
    ensures |Ahead(rows, n + 1)| == |Ahead(rows, n)| + if rows[n].status == Queued then 1 else 0
  {
    if rows[n].status == Queued {
      assert Ahead(rows, n + 1) == Ahead(rows, n) + {n};
    } else {
      assert Ahead(rows, n + 1) == Ahead(rows, n);
    }
  }

  /** A queued row stands in the queue behind exactly those. */
  lemma {:induction false} QueueAt(rows: seq<Send>, i: nat)
    requires i < |rows| && rows[i].status == Queued
    ensures |Queue(rows)| == |Ahead(rows, |rows|)|
    ensures |Ahead(rows, i)| < |Queue(rows)| && Queue(rows)[|Ahead(rows, i)|] == i
  {
    var n := |rows| - 1;
    QueueSize(rows);
    QueueSize(rows[..n]);
    assert forall j: nat :: j <= n ==> Ahead(rows[..n], j) == Ahead(rows, j);
    if i < n { QueueAt(rows[..n], i); }
  }

  lemma {:induction false} QueueSize(rows: seq<Send>)
    ensures |Queue(rows)| == |Ahead(rows, |rows|)|
  {
    if rows == [] {
      assert Ahead(rows, 0) == {};
    } else {
      var n := |rows| - 1;
      QueueSize(rows[..n]);
      assert Ahead(rows[..n], n) == Ahead(rows, n);
      AheadNext(rows, n);
    }
  }

  /** Rows sent in the hour before `now`. */
  function LastHour(rows: seq<Send>, now: Time): set<nat> {
    set i: nat | i < |rows| && rows[i].sentAt.Some? && rows[i].sentAt.value > now - 3_600
  }

  function Room(rows: seq<Send>, now: Time): nat {
    if |LastHour(rows, now)| >= 500 then 0 else 500 - |LastHour(rows, now)|
  }

  lemma RoomIs(rows: seq<Send>, now: Time)
    ensures Budget(rows, now) == Room(rows, now)
  {
    CountIsHits(rows, SentSince(now - HOUR));
    assert Hits(rows, SentSince(now - HOUR)) == LastHour(rows, now);
  }

  /** Row `i` is taken by the batch: queued, with fewer ahead of it than the hour has room for. */
  predicate Taken(s: State, i: nat) {
    i < |s.rows| && s.rows[i].status == Queued && |Ahead(s.rows, i)| < Room(s.rows, s.clock)
  }

  lemma PickedIff(s: State, i: nat)
    ensures Taken(s, i) <==> exists k :: 0 <= k < |Picked(s)| && Picked(s)[k] == i
    ensures Taken(s, i) ==> |Ahead(s.rows, i)| < |Picked(s)| && Picked(s)[|Ahead(s.rows, i)|] == i
  {
    RoomIs(s.rows, s.clock);
    QueueListsQueued(s.rows);
    if i < |s.rows| && s.rows[i].status == Queued { QueueAt(s.rows, i); }
    if Taken(s, i) { assert Picked(s)[|Ahead(s.rows, i)|] == i; }
    if k :| 0 <= k < |Picked(s)| && Picked(s)[k] == i {
      var place := |Ahead(s.rows, i)|;
      assert Queue(s.rows)[k] == Queue(s.rows)[place] == i;
      assert k == place;
    }
  }

  /** A row after its answer, at time `t`: `o` is not an exception. */
  function After(r: Send, o: Outcome, t: Time): Send {
    match o
    case Delivered => Send(r.contact, Sent, None, Some(t))
    case NotSent => Send(r.contact, Failed, Some("not_sent"), r.sentAt)
    case Refused(code) =>
      Send(r.contact, if code == "suppressed_contact" || code == "consent_missing" then Skipped else Failed, Some(code), r.sentAt)
    case Raised => r
  }

  lemma {:induction false} SendAllAt(rows: seq<Send>, picks: seq<nat>, w: Weather, n: nat, i: nat)
    requires n <= |picks| && InRange(picks, rows) && i < |rows|
    requires forall j, k :: 0 <= j < k < |picks| ==> picks[j] < picks[k]
    ensures (forall k :: 0 <= k < n ==> picks[k] != i) ==> SendAll(rows, picks, w, n)[i] == rows[i]
    ensures forall k :: 0 <= k < n && picks[k] == i ==> SendAll(rows, picks, w, n)[i] == After(rows[i], w.answer(i), w.at(k))
  {
    if n > 0 { SendAllAt(rows, picks, w, n - 1, i); }
  }

  lemma {:induction false} ReachedIff(picks: seq<nat>, w: Weather, k: nat)
    requires k < |picks|
    ensures k < Reached(picks, w) <==> forall j :: 0 <= j <= k ==> !w.answer(picks[j]).Raised?
  {
    if !w.answer(picks[0]).Raised? && k > 0 {
      ReachedIff(picks[1..], w, k - 1);
      assert forall j :: 1 <= j <= k ==> picks[j] == picks[1..][j - 1];
    }
  }

  /** No send of the batch up to and including that of row `i` raises. */
  predicate Answered(s: State, w: Weather, i: nat) {
    forall j: nat :: j <= i && Taken(s, j) ==> !w.answer(j).Raised?
  }

  /**
    A batch that is not stopped answers the oldest queued rows, as many as the hour has room for, one
    after the other up to the first exception, each with its own outcome; every other row stays.
   */
  lemma BatchRows(s: State, gate: Gate, w: Weather, i: nat)
    requires s.batch.None? && Stopped(s, gate).None? && i < |s.rows|
    ensures var rows' := AfterBatch(s, gate, w).rows;
            && |rows'| == |s.rows|
            && rows'[i] == if Taken(s, i) && Answered(s, w, i) then After(s.rows[i], w.answer(i), w.at(|Ahead(s.rows, i)|)) else s.rows[i]
  {
    BatchGates(s, gate, w);
    var picks := Picked(s);
    QueueListsQueued(s.rows);
    PickedIff(s, i);
    SendAllAt(s.rows, picks, w, Reached(picks, w), i);
    if Taken(s, i) {
      var k := |Ahead(s.rows, i)|;
      ReachedIff(picks, w, k);
      UpTo(s, w, i, k);
    }
  }

  lemma UpTo(s: State, w: Weather, i: nat, k: nat)
    requires k < |Picked(s)| && Picked(s)[k] == i
    ensures Answered(s, w, i) <==> forall j :: 0 <= j <= k ==> !w.answer(Picked(s)[j]).Raised?
  {
    QueueListsQueued(s.rows);
    var picks := Picked(s);
    if Answered(s, w, i) {
      forall j | 0 <= j <= k ensures !w.answer(picks[j]).Raised? { PickedIff(s, picks[j]); }
    }
    if forall j :: 0 <= j <= k ==> !w.answer(picks[j]).Raised? {
      forall j: nat | j <= i && Taken(s, j) ensures !w.answer(j).Raised? {
        PickedIff(s, j);
        var n :| 0 <= n < |picks| && picks[n] == j;
        assert n <= k;
      }
    }
  }

  /** When every taken row has been answered and none is left queued, the campaign is executed and its counts announced. */
  lemma BatchCloses(s: State, gate: Gate, w: Weather)
    requires s.batch.None? && Stopped(s, gate).None?
    ensures var s' := AfterBatch(s, gate, w);
            var over := (forall j: nat :: Taken(s, j) ==> !w.answer(j).Raised?) && With(s'.rows, Queued) == {};
            && s'.phase == (if over then Executed else Executing)
            && s'.announced == s.announced + if over then [Counts(|With(s'.rows, Sent)|, |With(s'.rows, Failed)|)] else []
  {
    BatchGates(s, gate, w);
    var s' := AfterBatch(s, gate, w);
    CountWith(s'.rows, Queued);
    CountWith(s'.rows, Sent);
    CountWith(s'.rows, Failed);
    AllAnswered(s, w);
    assert s.announced + [] == s.announced;
  }

  lemma AllAnswered(s: State, w: Weather)
    ensures Reached(Picked(s), w) == |Picked(s)| <==> forall j: nat :: Taken(s, j) ==> !w.answer(j).Raised?
  {
    var picks := Picked(s);
    forall j: nat ensures Taken(s, j) <==> exists k :: 0 <= k < |picks| && picks[k] == j { PickedIff(s, j); }
    if picks != [] { ReachedIff(picks, w, |picks| - 1); }
  }

  /** A set-up queues one row for each new contact, in the audience's order, behind the rows there are. */
  lemma {:induction false} QueuedInOrder(rows: seq<Send>, audience: seq<Contact>)
    requires forall i, j :: 0 <= i < j < |audience| ==> audience[i] != audience[j]
    requires forall i, j :: 0 <= i < |audience| && 0 <= j < |rows| ==> rows[j].contact != audience[i]
    ensures Materialised(rows, audience) == rows + seq(|audience|, i requires 0 <= i < |audience| => Send(audience[i], Queued, None, None))
  {
    if audience != [] {
      var n := |audience| - 1;
      QueuedInOrder(rows, audience[..n]);
      var before := Materialised(rows, audience[..n]);
      forall k | 0 <= k < |before| ensures before[k].contact != audience[n] {
        if k >= |rows| { assert before[k].contact == audience[k - |rows|]; }
      }
    }
  }
}
