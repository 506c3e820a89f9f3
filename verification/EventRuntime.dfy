/**
  The code that drives the event plane, statement by statement.  Each method performs its
  effects in the source's order; `Reaches` ties every one of them to the transition system,
  so the theorems of EventDelivery hold at each intermediate point, and the other
  postconditions say exactly what a call that was left undisturbed has done.
 */
module EventRuntime {
  import opened Events
  import opened EventSafety
  import opened EventDelivery
  import opened Wrappers

  /** How the handler transaction of one message ends. */
  datatype Fate = Succeeds | Raises | CommitsThenRaises

  ghost predicate Reaches(s: State, s': State) {
    exists run :: ValidRun(s, run) && Exec(s, run) == s'
  }

  lemma {:induction false} ExecSnoc(s: State, run: seq<Action>, a: Action)
    requires ValidRun(s, run) && Enabled(Exec(s, run), a)
    ensures ValidRun(s, run + [a]) && Exec(s, run + [a]) == Next(Exec(s, run), a)
    decreases |run|
  {
    if run == [] {
      assert ValidRun(Next(s, a), []);
      assert run + [a] == [a] && [a][1..] == [];
    } else {
      assert (run + [a])[1..] == run[1..] + [a];
      ExecSnoc(Next(s, run[0]), run[1..], a);
    }
  }

  lemma Here(s: State)
    ensures Reaches(s, s)
  {
    assert ValidRun(s, []) && Exec(s, []) == s;
  }

  lemma OneMore(s0: State, s: State, a: Action, s': State)
    requires Reaches(s0, s) && Enabled(s, a) && Next(s, a) == s'
    ensures Reaches(s0, s')
  {
    var run :| ValidRun(s0, run) && Exec(s0, run) == s;
    ExecSnoc(s0, run, a);
  }

  lemma StartStep(s0: State, s: State, w: nat, rows: seq<EventId>)
    requires Reaches(s0, s) && EnabledPub(s, w, Claim(rows))
    ensures Reaches(s0, State(s.specs, s.clock, s.db, s.bus, s.workers[w := Publisher(rows, 0)]))
  {
    OneMore(s0, s, Pub(w, Claim(rows)), NextPub(s, w, Claim(rows)));
  }

  lemma RelayStep(s0: State, s: State, w: nat, rows: seq<EventId>, i: nat)
    requires Reaches(s0, s) && w in s.workers && s.workers[w] == Publisher(rows, i)
    requires i < |rows| && rows[i] in s.db.outbox
    ensures var t := s.db.outbox[rows[i]].topic;
            Reaches(s0, State(s.specs, s.clock, s.db, XAdd(s.bus, t, Event(rows[i], t)), s.workers[w := Publisher(rows, i + 1)]))
  {
    OneMore(s0, s, Pub(w, Relay), NextPub(s, w, Relay));
  }

  lemma MarkStep(s0: State, s: State, w: nat, rows: seq<EventId>)
    requires Reaches(s0, s) && w in s.workers && s.workers[w] == Publisher(rows, |rows|)
    ensures Reaches(s0, State(s.specs, s.clock, MarkRows(s.db, rows), s.bus, s.workers - {w}))
  {
    OneMore(s0, s, Pub(w, Mark), NextPub(s, w, Mark));
  }

  lemma StopStep(s0: State, s: State, w: nat)
    requires Reaches(s0, s)
    ensures Reaches(s0, State(s.specs, s.clock, s.db, s.bus, s.workers - {w}))
  {
    OneMore(s0, s, Env(Stop(w)), NextEnv(s, Stop(w)));
  }

  lemma FetchStep(s0: State, s: State, w: nat, t: Topic, entries: seq<nat>)
    requires Reaches(s0, s) && EnabledRep(s, w, Fetch(t, entries))
    ensures Reaches(s0, State(s.specs, s.clock, s.db, s.bus, s.workers[w := Replayer(t, entries, ReadEntries(s.bus, entries), false)]))
  {
    OneMore(s0, s, Rep(w, Fetch(t, entries)), NextRep(s, w, Fetch(t, entries)));
  }

  /** Add, then delete: the first of the remaining entries is replayed. */
  lemma ReplayStep(s0: State, s: State, w: nat, t: Topic, entries: seq<nat>, events: seq<Event>)
    requires Reaches(s0, s) && w in s.workers && s.workers[w] == Replayer(t, entries, events, false)
    requires |entries| == |events| > 0
    ensures Reaches(s0, State(s.specs, s.clock, s.db, DlqDelete(XAdd(s.bus, t, events[0]), entries[0]),
                              s.workers[w := Replayer(t, entries[1..], events[1..], false)]))
  {
    var s1 := NextRep(s, w, Add);
    OneMore(s0, s, Rep(w, Add), s1);
    OneMore(s0, s1, Rep(w, Delete), NextRep(s1, w, Delete));
    assert s.workers[w := Replayer(t, entries, events, true)][w := Replayer(t, entries[1..], events[1..], false)]
        == s.workers[w := Replayer(t, entries[1..], events[1..], false)];
  }

  lemma HandleStep(s0: State, s: State, w: nat, c: ConStep)
    requires Reaches(s0, s) && w in s.workers && Working(s.bus, s.workers[w]) && EnabledHandling(s, s.workers[w], c)
    ensures var (d, b, me) := Handle(s, s.workers[w], c); Reaches(s0, State(s.specs, s.clock, d, b, s.workers[w := me]))
  {
    OneMore(s0, s, Con(w, c), NextCon(s, w, c));
  }

  lemma ReadStep(s0: State, s: State, w: nat, spec: Spec, count: nat)
    requires Reaches(s0, s) && EnabledCon(s, w, Read(spec, count))
    ensures Reaches(s0, State(s.specs, s.clock, s.db, Deliver(s.bus, KeyOf(spec), count),
                              s.workers[w := Consumer(spec, Range(GroupOf(s.bus, KeyOf(spec)).cursor, count), Idle)]))
  {
    OneMore(s0, s, Con(w, Read(spec, count)), NextCon(s, w, Read(spec, count)));
  }

  lemma {:induction false} ReachesOn(s0: State, s1: State, s2: State)
    requires Reaches(s0, s1) && Reaches(s1, s2)
    ensures Reaches(s0, s2)
  {
    var run :| ValidRun(s1, run) && Exec(s1, run) == s2;
    ReachesAlong(s0, s1, run);
  }

  lemma {:induction false} ReachesAlong(s0: State, s1: State, run: seq<Action>)
    requires Reaches(s0, s1) && ValidRun(s1, run)
    ensures Reaches(s0, Exec(s1, run))
    decreases |run|
  {
    if run != [] {
      OneMore(s0, s1, run[0], Next(s1, run[0]));
      ReachesAlong(s0, Next(s1, run[0]), run[1..]);
    }
  }

  lemma ReachesKeeps(s: State, s': State)
    requires Inv(s) && Reaches(s, s')
    ensures Inv(s') && (Covered(s) ==> Covered(s'))
  {
    var run :| ValidRun(s, run) && Exec(s, run) == s';
    RunInv(s, run);
    if Covered(s) { RunKeeps(s, run); }
  }

  lemma {:induction false} RunInv(s: State, run: seq<Action>)
    requires Inv(s) && ValidRun(s, run)
    ensures Inv(Exec(s, run))
    decreases |run|
  {
    if run != [] {
      KeepsInv(s, run[0]);
      RunInv(Next(s, run[0]), run[1..]);
    }
  }

  /** The bus after relaying the rows one by one. */
  function Relays(b: Bus, outbox: map<EventId, Row>, rows: seq<EventId>): Bus
    requires forall i :: 0 <= i < |rows| ==> rows[i] in outbox
  {
    if rows == [] then b
    else
      var id := rows[|rows| - 1];
      XAdd(Relays(b, outbox, rows[..|rows| - 1]), outbox[id].topic, Event(id, outbox[id].topic))
  }

  /** The events of one topic among the rows, in row order. */
  lemma RelaysNext(b: Bus, outbox: map<EventId, Row>, rows: seq<EventId>, i: nat)
    requires i < |rows| && forall k :: 0 <= k < |rows| ==> rows[k] in outbox
    ensures Relays(b, outbox, rows[..i + 1])
         == XAdd(Relays(b, outbox, rows[..i]), outbox[rows[i]].topic, Event(rows[i], outbox[rows[i]].topic))
  {
    assert rows[..i + 1][..i] == rows[..i];
  }

  function OfTopic(outbox: map<EventId, Row>, rows: seq<EventId>, t: Topic): seq<Event>
    requires forall i :: 0 <= i < |rows| ==> rows[i] in outbox
  {
    if rows == [] then []
    else
      var id := rows[|rows| - 1];
      OfTopic(outbox, rows[..|rows| - 1], t) + if outbox[id].topic == t then [Event(id, t)] else []
  }

  /** Every stream gains its own events, in order, and nothing else in Redis changes. */
  lemma {:induction false} RelaysAppend(b: Bus, outbox: map<EventId, Row>, rows: seq<EventId>, t: Topic)
    requires forall i :: 0 <= i < |rows| ==> rows[i] in outbox
    ensures Stream(Relays(b, outbox, rows), t) == Stream(b, t) + OfTopic(outbox, rows, t)
    ensures Relays(b, outbox, rows).groups == b.groups && Relays(b, outbox, rows).dlq == b.dlq
    ensures Relays(b, outbox, rows).retries == b.retries
  {
    if rows != [] {
      RelaysAppend(b, outbox, rows[..|rows| - 1], t);
    }
  }

  /** The entries of a topic's dead-letter queue with ids below `n`, oldest first. */
  function EntriesBelow(b: Bus, t: Topic, n: nat): (r: seq<nat>)
    ensures forall d :: d in r <==> d < n && d in b.dlq && b.dlq[d].topic == t
    ensures forall i, j :: 0 <= i < j < |r| ==> r[i] < r[j]
  {
    if n == 0 then []
    else
      var older := EntriesBelow(b, t, n - 1);
      assert forall i :: 0 <= i < |older| ==> older[i] in older;
      older + if n - 1 in b.dlq && b.dlq[n - 1].topic == t then [n - 1] else []
  }

  /** The first `limit` entries of the queue. */
  function Oldest(b: Bus, t: Topic, limit: nat): (r: seq<nat>)
    ensures forall i :: 0 <= i < |r| ==> r[i] in b.dlq && b.dlq[r[i]].topic == t
  {
    var all := EntriesBelow(b, t, b.nextEntry);
    if limit < |all| then all[..limit] else all
  }

  /** Nothing older is left behind: an entry not among those chosen is newer than each, and there are `limit` of them. */
  lemma OldestFirst(b: Bus, t: Topic, limit: nat, d: nat)
    requires BusOk(b) && d in b.dlq && b.dlq[d].topic == t && d !in Oldest(b, t, limit)
    ensures |Oldest(b, t, limit)| == limit && forall i :: 0 <= i < limit ==> Oldest(b, t, limit)[i] < d
  {
    var all := EntriesBelow(b, t, b.nextEntry);
    assert d in all && all == all[..limit] + all[limit..];
    var k :| 0 <= k < |all| - limit && all[limit..][k] == d;
    assert all[limit + k] == d;
  }

  /** The bus after the first `n` entries went back on their stream and left the queue. */
  function ReplayedTo(b: Bus, t: Topic, entries: seq<nat>, n: nat): Bus
    requires n <= |entries| && forall i :: 0 <= i < |entries| ==> entries[i] in b.dlq
  {
    if n == 0 then b
    else DlqDelete(XAdd(ReplayedTo(b, t, entries, n - 1), t, b.dlq[entries[n - 1]]), entries[n - 1])
  }

  /** What was replayed is exactly what left the dead-letter queue, in order. */
  lemma ReplayMoves(b: Bus, t: Topic, entries: seq<nat>, n: nat)
    requires n <= |entries| && forall i :: 0 <= i < |entries| ==> entries[i] in b.dlq
    ensures Stream(ReplayedTo(b, t, entries, n), t) == Stream(b, t) + ReadEntries(b, entries)[..n]
    ensures ReplayedTo(b, t, entries, n).dlq == b.dlq - (set i | 0 <= i < n :: entries[i])
    ensures ReplayedTo(b, t, entries, n).groups == b.groups && ReplayedTo(b, t, entries, n).retries == b.retries
    ensures forall u :: u != t ==> Stream(ReplayedTo(b, t, entries, n), u) == Stream(b, u)
  {
    ReplayAppends(b, t, entries, n);
    ReplayDeletes(b, t, entries, n);
  }

  lemma ReplayedStream(b: Bus, t: Topic, e: Event, d: nat, u: Topic)
    ensures Stream(DlqDelete(XAdd(b, t, e), d), u) == if u == t then Stream(b, t) + [e] else Stream(b, u)
  {}

  lemma NextEntry(b: Bus, entries: seq<nat>, n: nat)
    requires 0 < n <= |entries| && forall i :: 0 <= i < |entries| ==> entries[i] in b.dlq
    ensures ReadEntries(b, entries)[..n] == ReadEntries(b, entries)[..n - 1] + [b.dlq[entries[n - 1]]]
  {}

  lemma {:induction false} ReplayAppends(b: Bus, t: Topic, entries: seq<nat>, n: nat)
    requires n <= |entries| && forall i :: 0 <= i < |entries| ==> entries[i] in b.dlq
    ensures Stream(ReplayedTo(b, t, entries, n), t) == Stream(b, t) + ReadEntries(b, entries)[..n]
    ensures forall u :: u != t ==> Stream(ReplayedTo(b, t, entries, n), u) == Stream(b, u)
  {
    if n > 0 {
      ReplayAppends(b, t, entries, n - 1);
      NextEntry(b, entries, n);
      var (was, d, done) := (ReplayedTo(b, t, entries, n - 1), entries[n - 1], ReadEntries(b, entries)[..n - 1]);
      forall u ensures Stream(ReplayedTo(b, t, entries, n), u) == if u == t then Stream(was, t) + [b.dlq[d]] else Stream(was, u) {
        ReplayedStream(was, t, b.dlq[d], d, u);
      }
      assert Stream(b, t) + (done + [b.dlq[d]]) == Stream(b, t) + done + [b.dlq[d]];
    } else {
      assert Stream(b, t) + [] == Stream(b, t);
    }
  }

  lemma {:induction false} ReplayDeletes(b: Bus, t: Topic, entries: seq<nat>, n: nat)
    requires n <= |entries| && forall i :: 0 <= i < |entries| ==> entries[i] in b.dlq
    ensures ReplayedTo(b, t, entries, n).dlq == b.dlq - (set i | 0 <= i < n :: entries[i])
    ensures ReplayedTo(b, t, entries, n).groups == b.groups && ReplayedTo(b, t, entries, n).retries == b.retries
  {
    if n > 0 {
      ReplayDeletes(b, t, entries, n - 1);
      assert (set i | 0 <= i < n :: entries[i]) == (set i | 0 <= i < n - 1 :: entries[i]) + {entries[n - 1]};
    }
  }

  /** The database after one handled message. */
  function DbAfter(d: Db, k: Key, fate: Fate, now: int): Db {
    if fate == Raises || k in d.dedupe then d else CommitRow(d, k, now)
  }

  /** Redis after one handled message: acked and forgotten, counted, or dead-lettered with an alert. */
  function BusAfter(b: Bus, spec: Spec, msg: nat, ok: bool, alert: EventId): (b': Bus)
    requires KeyOf(spec) in b.groups && msg < |Stream(b, spec.topic)|
    ensures KeyOf(spec) in b'.groups && Stream(b, spec.topic) <= Stream(b', spec.topic)
  {
    var k := RetryKey(KeyOf(spec), msg);
    var counted := SetRetries(b, k, Attempts(b, k) + 1);
    if ok then ForgetRetries(XAck(b, KeyOf(spec), msg), k)
    else if Attempts(b, k) < DLQ_AFTER then counted
    else ForgetRetries(XAck(XAdd(DlqAdd(counted, Stream(b, spec.topic)[msg]), ALERTS, Event(alert, ALERTS)), KeyOf(spec), msg), k)
  }

  predicate Ready(b: Bus, spec: Spec, msgs: seq<nat>) {
    KeyOf(spec) in b.groups && forall i :: 0 <= i < |msgs| ==> msgs[i] < |Stream(b, spec.topic)|
  }

  /** Up to `count` messages past the group's cursor. */
  function Unread(b: Bus, spec: Spec, count: nat): seq<nat> {
    var g := GroupOf(b, KeyOf(spec));
    var left := if g.cursor <= |Stream(b, spec.topic)| then |Stream(b, spec.topic)| - g.cursor else 0;
    Range(g.cursor, if count < left then count else left)
  }

  lemma ReadyIfPending(s: State, spec: Spec, msgs: seq<nat>)
    requires Inv(s) && KeyOf(spec) in s.bus.groups
    requires forall i :: 0 <= i < |msgs| ==> msgs[i] in s.bus.groups[KeyOf(spec)].pending
    ensures Ready(s.bus, spec, msgs)
  {
  }

  /** Both stores after handling the messages one after the other. */
  function Drained(d: Db, b: Bus, spec: Spec, msgs: seq<nat>, fates: nat -> Fate, alerts: nat -> EventId, now: int): (Db, Bus)
    requires Ready(b, spec, msgs)
    decreases |msgs|
  {
    if msgs == [] then (d, b)
    else
      var m := msgs[0];
      Drained(DbAfter(d, Key(spec.name, Stream(b, spec.topic)[m].id), fates(m), now),
              BusAfter(b, spec, m, fates(m) == Succeeds, alerts(m)), spec, msgs[1..], fates, alerts, now)
  }

  lemma {:induction false} DrainKeepsGroup(d: Db, b: Bus, spec: Spec, msgs: seq<nat>, fates: nat -> Fate, alerts: nat -> EventId, now: int)
    requires Ready(b, spec, msgs)
    ensures KeyOf(spec) in Drained(d, b, spec, msgs, fates, alerts, now).1.groups
    decreases |msgs|
  {
    if msgs != [] {
      var d1 := DbAfter(d, Key(spec.name, Stream(b, spec.topic)[msgs[0]].id), fates(msgs[0]), now);
      DrainKeepsGroup(d1, BusAfter(b, spec, msgs[0], fates(msgs[0]) == Succeeds, alerts(msgs[0])), spec, msgs[1..], fates, alerts, now);
    }
  }

  lemma DrainNext(d: Db, b: Bus, spec: Spec, msgs: seq<nat>, i: nat, fates: nat -> Fate, alerts: nat -> EventId, now: int)
    requires i < |msgs| && Ready(b, spec, msgs[i..])
    ensures msgs[i..] == [msgs[i]] + msgs[i + 1..]
    ensures var m := msgs[i];
            var d1 := DbAfter(d, Key(spec.name, Stream(b, spec.topic)[m].id), fates(m), now);
            var b1 := BusAfter(b, spec, m, fates(m) == Succeeds, alerts(m));
            && Ready(b1, spec, msgs[i + 1..])
            && Drained(d, b, spec, msgs[i..], fates, alerts, now) == Drained(d1, b1, spec, msgs[i + 1..], fates, alerts, now)
  {
    assert msgs[i..][0] == msgs[i] && msgs[i..][1..] == msgs[i + 1..];
  }

  /** No worker but `w` is inside a transaction that holds the dedupe row of one of the messages. */
  ghost predicate Unheld(b: Bus, workers: map<nat, Worker>, w: nat, spec: Spec, msgs: seq<nat>) {
    forall v, i :: v in workers && v != w && 0 <= i < |msgs| && msgs[i] < |Stream(b, spec.topic)| ==>
      !Holds(b, workers[v], Key(spec.name, Stream(b, spec.topic)[msgs[i]].id))
  }

  /** Whatever a consumer is working on is in its stream. */
  ghost predicate Seated(b: Bus, workers: map<nat, Worker>) {
    forall v :: v in workers && workers[v].Consumer? && workers[v].queue != [] ==> Working(b, workers[v])
  }

  lemma UnheldStays(b: Bus, b': Bus, workers: map<nat, Worker>, w: nat, spec: Spec, msgs: seq<nat>)
    requires Unheld(b, workers, w, spec, msgs) && Seated(b, workers) && Ready(b, spec, msgs)
    requires forall t :: Stream(b, t) <= Stream(b', t)
    ensures Unheld(b', workers, w, spec, msgs) && Seated(b', workers)
  {
    forall v, i | v in workers && v != w && 0 <= i < |msgs| && msgs[i] < |Stream(b', spec.topic)|
      ensures !Holds(b', workers[v], Key(spec.name, Stream(b', spec.topic)[msgs[i]].id))
    {
      assert !Holds(b, workers[v], Key(spec.name, Stream(b, spec.topic)[msgs[i]].id));
    }
  }

  lemma SeatedIfInv(s: State)
    requires Inv(s)
    ensures Seated(s.bus, s.workers)
  {
    forall v | v in s.workers && s.workers[v].Consumer? && s.workers[v].queue != [] ensures Working(s.bus, s.workers[v]) {
      assert WorkerOk(s.specs, s.db, s.bus, s.workers[v]);
    }
  }

  lemma DeliverStays(b: Bus, workers: map<nat, Worker>, w: nat, spec: Spec, msgs: seq<nat>, count: nat)
    requires Unheld(b, workers, w, spec, msgs) && Seated(b, workers) && Ready(b, spec, msgs)
    ensures var b' := Deliver(b, KeyOf(spec), count); Unheld(b', workers, w, spec, msgs) && Seated(b', workers)
  {
    UnheldStays(b, Deliver(b, KeyOf(spec), count), workers, w, spec, msgs);
  }

  lemma Joins(b: Bus, workers: map<nat, Worker>, w: nat, spec: Spec, msgs: seq<nat>)
    requires Unheld(b, workers, w, spec, msgs) && Seated(b, workers) && Ready(b, spec, msgs)
    ensures var now := workers[w := Consumer(spec, msgs, Idle)]; Unheld(b, now, w, spec, msgs) && Seated(b, now)
  {}

  lemma BusAfterGrows(b: Bus, spec: Spec, msg: nat, ok: bool, alert: EventId)
    requires KeyOf(spec) in b.groups && msg < |Stream(b, spec.topic)|
    ensures forall t :: Stream(b, t) <= Stream(BusAfter(b, spec, msg, ok, alert), t)
  {}

  lemma NextUnheld(
    b: Bus, workers: map<nat, Worker>, w: nat, spec: Spec, msgs: seq<nat>, i: nat, ok: bool, alert: EventId)
    requires i < |msgs| && Ready(b, spec, msgs[i..]) && Unheld(b, workers, w, spec, msgs[i..]) && Seated(b, workers)
    ensures msgs[i] < |Stream(b, spec.topic)|
    ensures forall v :: v in workers && v != w ==> !Holds(b, workers[v], Key(spec.name, Stream(b, spec.topic)[msgs[i]].id))
    ensures var b' := BusAfter(b, spec, msgs[i], ok, alert);
            Unheld(b', workers, w, spec, msgs[i + 1..]) && Seated(b', workers)
  {
    var rest := msgs[i + 1..];
    assert msgs[i..] == [msgs[i]] + rest;
    assert forall k :: 0 <= k < |rest| ==> rest[k] in msgs[i..];
    BusAfterGrows(b, spec, msgs[i], ok, alert);
    UnheldStays(b, BusAfter(b, spec, msgs[i], ok, alert), workers, w, spec, msgs[i + 1..]);
  }

  lemma {:induction false} DrainGrows(d: Db, b: Bus, spec: Spec, msgs: seq<nat>, fates: nat -> Fate, alerts: nat -> EventId, now: int)
    requires Ready(b, spec, msgs)
    ensures forall t :: Stream(b, t) <= Stream(Drained(d, b, spec, msgs, fates, alerts, now).1, t)
    decreases |msgs|
  {
    if msgs != [] {
      var d1 := DbAfter(d, Key(spec.name, Stream(b, spec.topic)[msgs[0]].id), fates(msgs[0]), now);
      BusAfterGrows(b, spec, msgs[0], fates(msgs[0]) == Succeeds, alerts(msgs[0]));
      DrainGrows(d1, BusAfter(b, spec, msgs[0], fates(msgs[0]) == Succeeds, alerts(msgs[0])), spec, msgs[1..], fates, alerts, now);
    }
  }

  /** Every message whose handler succeeds is acked and its dedupe row is durable. */
  lemma {:induction false} DrainSettles(d: Db, b: Bus, spec: Spec, msgs: seq<nat>, fates: nat -> Fate, alerts: nat -> EventId, now: int, i: nat)
    requires Ready(b, spec, msgs) && i < |msgs| && fates(msgs[i]) == Succeeds
    ensures var (d', b') := Drained(d, b, spec, msgs, fates, alerts, now);
            && Key(spec.name, Stream(b, spec.topic)[msgs[i]].id) in d'.dedupe
            && msgs[i] !in GroupOf(b', KeyOf(spec)).pending
    decreases |msgs|
  {
    var m := msgs[0];
    var d1 := DbAfter(d, Key(spec.name, Stream(b, spec.topic)[m].id), fates(m), now);
    var b1 := BusAfter(b, spec, m, fates(m) == Succeeds, alerts(m));
    if i > 0 {
      DrainSettles(d1, b1, spec, msgs[1..], fates, alerts, now, i - 1);
    } else {
      DrainOnlyAdds(d1, b1, spec, msgs[1..], fates, alerts, now, Key(spec.name, Stream(b, spec.topic)[m].id), m);
    }
  }

  /** Handling never removes a dedupe row and never makes a message pending again. */
  lemma {:induction false} DrainOnlyAdds(d: Db, b: Bus, spec: Spec, msgs: seq<nat>, fates: nat -> Fate, alerts: nat -> EventId,
                                         now: int, k: Key, m: nat)
    requires Ready(b, spec, msgs)
    ensures var (d', b') := Drained(d, b, spec, msgs, fates, alerts, now);
            && (k in d.dedupe ==> k in d'.dedupe)
            && (m !in GroupOf(b, KeyOf(spec)).pending ==> m !in GroupOf(b', KeyOf(spec)).pending)
    decreases |msgs|
  {
    if msgs != [] {
      var d1 := DbAfter(d, Key(spec.name, Stream(b, spec.topic)[msgs[0]].id), fates(msgs[0]), now);
      var b1 := BusAfter(b, spec, msgs[0], fates(msgs[0]) == Succeeds, alerts(msgs[0]));
      DrainOnlyAdds(d1, b1, spec, msgs[1..], fates, alerts, now, k, m);
    }
  }

  /** A message that fails below the limit, or is not in the batch at all, stays pending. */
  lemma {:induction false} DrainLeavesPending(d: Db, b: Bus, spec: Spec, msgs: seq<nat>, fates: nat -> Fate, alerts: nat -> EventId,
                                              now: int, m: nat)
    requires Ready(b, spec, msgs) && m in GroupOf(b, KeyOf(spec)).pending
    requires forall i, j :: 0 <= i < j < |msgs| ==> msgs[i] != msgs[j]
    requires m in msgs ==> fates(m) != Succeeds && Attempts(b, RetryKey(KeyOf(spec), m)) < DLQ_AFTER
    ensures var (d', b') := Drained(d, b, spec, msgs, fates, alerts, now);
            && m in GroupOf(b', KeyOf(spec)).pending
            && Attempts(b', RetryKey(KeyOf(spec), m)) == Attempts(b, RetryKey(KeyOf(spec), m)) + if m in msgs then 1 else 0
    decreases |msgs|
  {
    if msgs != [] {
      var d1 := DbAfter(d, Key(spec.name, Stream(b, spec.topic)[msgs[0]].id), fates(msgs[0]), now);
      var b1 := BusAfter(b, spec, msgs[0], fates(msgs[0]) == Succeeds, alerts(msgs[0]));
      assert msgs[0] !in msgs[1..];
      assert m in msgs <==> m == msgs[0] || m in msgs[1..];
      DrainLeavesPending(d1, b1, spec, msgs[1..], fates, alerts, now, m);
    }
  }

  /**
    How the handling of message `m`, event `e`, that had failed `tries` times before, has ended: settled with its row
    durable, pending with one more failure, or dead-lettered under an entry not older than `from`.
   */
  ghost predicate Ended(d: Db, b: Bus, spec: Spec, m: nat, e: Event, fate: Fate, tries: nat, from: nat) {
    var (pending, failures) := (m in GroupOf(b, KeyOf(spec)).pending, Attempts(b, RetryKey(KeyOf(spec), m)));
    && (fate != Raises ==> Key(spec.name, e.id) in d.dedupe)
    && if fate == Succeeds then !pending && failures == 0
       else if tries < 5 then pending && failures == tries + 1
       else !pending && failures == 0 && exists x: nat :: from <= x < b.nextEntry && x in b.dlq && b.dlq[x] == e
  }

  lemma FirstEnds(d: Db, b: Bus, spec: Spec, m: nat, fate: Fate, alert: EventId, now: int, from: nat)
    requires KeyOf(spec) in b.groups && m < |Stream(b, spec.topic)| && m in b.groups[KeyOf(spec)].pending && from <= b.nextEntry
    ensures var (e, tries) := (Stream(b, spec.topic)[m], Attempts(b, RetryKey(KeyOf(spec), m)));
            Ended(DbAfter(d, Key(spec.name, e.id), fate, now), BusAfter(b, spec, m, fate == Succeeds, alert), spec, m, e, fate, tries, from)
  {
    if fate != Succeeds && Attempts(b, RetryKey(KeyOf(spec), m)) >= 5 {
      var b' := BusAfter(b, spec, m, false, alert);
      assert b.nextEntry in b'.dlq && b'.dlq[b.nextEntry] == Stream(b, spec.topic)[m];
    }
  }

  /** Handling one message leaves every other as it was. */
  lemma OthersUntouched(b: Bus, spec: Spec, msg: nat, ok: bool, alert: EventId, m: nat)
    requires KeyOf(spec) in b.groups && msg < |Stream(b, spec.topic)| && m != msg
    ensures var (b', g) := (BusAfter(b, spec, msg, ok, alert), KeyOf(spec));
            && (m in GroupOf(b', g).pending <==> m in GroupOf(b, g).pending) && GroupOf(b', g).cursor == GroupOf(b, g).cursor
            && Attempts(b', RetryKey(g, m)) == Attempts(b, RetryKey(g, m))
  {}

  lemma DlqGrows(b: Bus, spec: Spec, msg: nat, ok: bool, alert: EventId)
    requires KeyOf(spec) in b.groups && msg < |Stream(b, spec.topic)|
    ensures var b' := BusAfter(b, spec, msg, ok, alert);
            b.nextEntry <= b'.nextEntry && forall x :: x < b.nextEntry && x in b.dlq ==> x in b'.dlq && b'.dlq[x] == b.dlq[x]
  {}

  lemma EndedStays(
    d: Db, b: Bus, spec: Spec, msg: nat, f: Fate, alert: EventId, now: int, m: nat, e: Event, fate: Fate, tries: nat, from: nat)
    requires KeyOf(spec) in b.groups && msg < |Stream(b, spec.topic)| && m != msg && Ended(d, b, spec, m, e, fate, tries, from)
    ensures Ended(DbAfter(d, Key(spec.name, Stream(b, spec.topic)[msg].id), f, now), BusAfter(b, spec, msg, f == Succeeds, alert),
                  spec, m, e, fate, tries, from)
  {
    OthersUntouched(b, spec, msg, f == Succeeds, alert, m);
    DlqGrows(b, spec, msg, f == Succeeds, alert);
  }

  lemma {:induction false} EndedStaysOver(
    d: Db, b: Bus, spec: Spec, msgs: seq<nat>, fates: nat -> Fate, alerts: nat -> EventId, now: int,
    m: nat, e: Event, fate: Fate, tries: nat, from: nat)
    requires Ready(b, spec, msgs) && m !in msgs && Ended(d, b, spec, m, e, fate, tries, from)
    ensures var (d', b') := Drained(d, b, spec, msgs, fates, alerts, now); Ended(d', b', spec, m, e, fate, tries, from)
    decreases |msgs|
  {
    if msgs != [] {
      var d1 := DbAfter(d, Key(spec.name, Stream(b, spec.topic)[msgs[0]].id), fates(msgs[0]), now);
      var b1 := BusAfter(b, spec, msgs[0], fates(msgs[0]) == Succeeds, alerts(msgs[0]));
      EndedStays(d, b, spec, msgs[0], fates(msgs[0]), alerts(msgs[0]), now, m, e, fate, tries, from);
      EndedStaysOver(d1, b1, spec, msgs[1..], fates, alerts, now, m, e, fate, tries, from);
    }
  }

  predicate Apart(msgs: seq<nat>) { forall i, j :: 0 <= i < j < |msgs| ==> msgs[i] != msgs[j] }

  /** Every pending message of a reply ends in one of the three ways. */
  lemma {:induction false} AllEnd(
    d: Db, b: Bus, spec: Spec, msgs: seq<nat>, fates: nat -> Fate, alerts: nat -> EventId, now: int, m: nat, from: nat)
    requires Ready(b, spec, msgs) && Apart(msgs) && m in msgs && m in b.groups[KeyOf(spec)].pending && from <= b.nextEntry
    requires m < |Stream(b, spec.topic)|
    ensures var (d', b') := Drained(d, b, spec, msgs, fates, alerts, now);
            Ended(d', b', spec, m, Stream(b, spec.topic)[m], fates(m), Attempts(b, RetryKey(KeyOf(spec), m)), from)
    decreases |msgs|
  {
    var (first, e) := (msgs[0], Stream(b, spec.topic)[m]);
    var d1 := DbAfter(d, Key(spec.name, Stream(b, spec.topic)[first].id), fates(first), now);
    var b1 := BusAfter(b, spec, first, fates(first) == Succeeds, alerts(first));
    if m == first {
      FirstEnds(d, b, spec, m, fates(m), alerts(m), now, from);
      EndedStaysOver(d1, b1, spec, msgs[1..], fates, alerts, now, m, e, fates(m), Attempts(b, RetryKey(KeyOf(spec), m)), from);
    } else {
      OthersUntouched(b, spec, first, fates(first) == Succeeds, alerts(first), m);
      DlqGrows(b, spec, first, fates(first) == Succeeds, alerts(first));
      AllEnd(d1, b1, spec, msgs[1..], fates, alerts, now, m, from);
    }
  }

  /** A message of no reply keeps its failures, and its place before or behind the cursor. */
  lemma {:induction false} OthersUntouchedOver(
    d: Db, b: Bus, spec: Spec, msgs: seq<nat>, fates: nat -> Fate, alerts: nat -> EventId, now: int, m: nat)
    requires Ready(b, spec, msgs) && m !in msgs
    ensures var (b', g) := (Drained(d, b, spec, msgs, fates, alerts, now).1, KeyOf(spec));
            Attempts(b', RetryKey(g, m)) == Attempts(b, RetryKey(g, m))
    decreases |msgs|
  {
    if msgs != [] {
      var d1 := DbAfter(d, Key(spec.name, Stream(b, spec.topic)[msgs[0]].id), fates(msgs[0]), now);
      var b1 := BusAfter(b, spec, msgs[0], fates(msgs[0]) == Succeeds, alerts(msgs[0]));
      OthersUntouched(b, spec, msgs[0], fates(msgs[0]) == Succeeds, alerts(msgs[0]), m);
      OthersUntouchedOver(d1, b1, spec, msgs[1..], fates, alerts, now, m);
    }
  }

  /** Handling moves no cursor; a topic other than that of the alerts gains nothing; entries are numbered on. */
  lemma {:induction false} DrainedShape(
    d: Db, b: Bus, spec: Spec, msgs: seq<nat>, fates: nat -> Fate, alerts: nat -> EventId, now: int)
    requires Ready(b, spec, msgs)
    ensures var (b', g) := (Drained(d, b, spec, msgs, fates, alerts, now).1, KeyOf(spec));
            && g in b'.groups && b'.groups[g].cursor == b.groups[g].cursor && b.nextEntry <= b'.nextEntry
            && (spec.topic != ALERTS ==> Stream(b', spec.topic) == Stream(b, spec.topic))
    decreases |msgs|
  {
    if msgs != [] {
      var d1 := DbAfter(d, Key(spec.name, Stream(b, spec.topic)[msgs[0]].id), fates(msgs[0]), now);
      DrainedShape(d1, BusAfter(b, spec, msgs[0], fates(msgs[0]) == Succeeds, alerts(msgs[0])), spec, msgs[1..], fates, alerts, now);
    }
  }

  function Positions(from: nat, until: nat): seq<nat>
    requires from <= until
  {
    seq(until - from, i requires 0 <= i < until - from => from + i)
  }

  /** The new messages of a pass, when `length` entries are in the stream: as many as asked for, or all there are. */
  lemma NewOnes(b: Bus, spec: Spec, count: nat)
    requires KeyOf(spec) in b.groups && b.groups[KeyOf(spec)].cursor <= |Stream(b, spec.topic)|
    ensures var (from, length) := (b.groups[KeyOf(spec)].cursor, |Stream(b, spec.topic)|);
            var until := from + Min(count, length - from);
            && Unread(b, spec, count) == Positions(from, until)
            && Deliver(b, KeyOf(spec), until - from).groups[KeyOf(spec)].cursor == until
            && forall m :: m in Deliver(b, KeyOf(spec), until - from).groups[KeyOf(spec)].pending
                 <==> m in b.groups[KeyOf(spec)].pending || from <= m < until
  {
    var from := b.groups[KeyOf(spec)].cursor;
    var until := from + Min(count, |Stream(b, spec.topic)| - from);
    InPositions(from, until);
    assert Range(from, until - from) == Positions(from, until);
  }

  lemma InPositions(from: nat, until: nat)
    requires from <= until
    ensures Apart(Positions(from, until)) && forall m :: m in Positions(from, until) <==> from <= m < until
  {
    forall m | from <= m < until ensures m in Positions(from, until) { assert Positions(from, until)[m - from] == m; }
  }

  /** The stores of a pass: after the reclaimed messages, and after the new ones. */
  ghost predicate Pass(
    d0: Db, b0: Bus, spec: Spec, claimed: seq<nat>, count: nat, fates: nat -> Fate, alerts: nat -> EventId, now: int,
    d1: Db, b1: Bus, d2: Db, b2: Bus)
  {
    && Ready(b0, spec, claimed) && (d1, b1) == Drained(d0, b0, spec, claimed, fates, alerts, now)
    && var unread := Unread(b1, spec, count);
       && Ready(Deliver(b1, KeyOf(spec), |unread|), spec, unread)
       && (d2, b2) == Drained(d1, Deliver(b1, KeyOf(spec), |unread|), spec, unread, fates, alerts, now)
  }

  /** What is pending is behind the cursor, and the cursor within the stream. */
  predicate GroupOk(b: Bus, spec: Spec) {
    && KeyOf(spec) in b.groups && b.groups[KeyOf(spec)].cursor <= |Stream(b, spec.topic)|
    && forall m :: m in b.groups[KeyOf(spec)].pending ==> m < b.groups[KeyOf(spec)].cursor
  }

  lemma PassMoves(
    d0: Db, b0: Bus, spec: Spec, claimed: seq<nat>, count: nat, fates: nat -> Fate, alerts: nat -> EventId, now: int,
    d1: Db, b1: Bus, d2: Db, b2: Bus)
    requires Pass(d0, b0, spec, claimed, count, fates, alerts, now, d1, b1, d2, b2) && GroupOk(b0, spec)
    ensures var (g, from, length) := (KeyOf(spec), b0.groups[KeyOf(spec)].cursor, |Stream(b1, spec.topic)|);
            && Stream(b0, spec.topic) <= Stream(b1, spec.topic) <= Stream(b2, spec.topic)
            && (spec.topic != ALERTS ==> length == |Stream(b0, spec.topic)|)
            && g in b1.groups && b1.groups[g].cursor == from && from <= length
            && g in b2.groups && b2.groups[g].cursor == from + Min(count, length - from)
            && Unread(b1, spec, count) == Positions(from, from + Min(count, length - from))
  {
    DrainedShape(d0, b0, spec, claimed, fates, alerts, now);
    DrainGrows(d0, b0, spec, claimed, fates, alerts, now);
    NewOnes(b1, spec, count);
    var unread := Unread(b1, spec, count);
    DrainedShape(d1, Deliver(b1, KeyOf(spec), |unread|), spec, unread, fates, alerts, now);
    DrainGrows(d1, Deliver(b1, KeyOf(spec), |unread|), spec, unread, fates, alerts, now);
  }

  /** A new message before it is handled: pending, once, with the failures it had. */
  lemma NewPending(
    d0: Db, b0: Bus, spec: Spec, claimed: seq<nat>, count: nat, fates: nat -> Fate, alerts: nat -> EventId, now: int,
    d1: Db, b1: Bus, d2: Db, b2: Bus, m: nat)
    requires Pass(d0, b0, spec, claimed, count, fates, alerts, now, d1, b1, d2, b2) && GroupOk(b0, spec)
    requires forall i :: 0 <= i < |claimed| ==> claimed[i] in b0.groups[KeyOf(spec)].pending
    requires KeyOf(spec) in b2.groups && b0.groups[KeyOf(spec)].cursor <= m < b2.groups[KeyOf(spec)].cursor
    ensures var unread := Unread(b1, spec, count);
            var given := Deliver(b1, KeyOf(spec), |unread|);
            && Apart(unread) && m in unread && m < |Stream(given, spec.topic)| <= |Stream(b2, spec.topic)|
            && Stream(given, spec.topic) <= Stream(b2, spec.topic)
            && m in given.groups[KeyOf(spec)].pending && b0.nextEntry <= given.nextEntry
            && Attempts(given, RetryKey(KeyOf(spec), m)) == Attempts(b0, RetryKey(KeyOf(spec), m))
  {
    PassMoves(d0, b0, spec, claimed, count, fates, alerts, now, d1, b1, d2, b2);
    DrainedShape(d0, b0, spec, claimed, fates, alerts, now);
    OthersUntouchedOver(d0, b0, spec, claimed, fates, alerts, now, m);
    NewOnes(b1, spec, count);
    InPositions(b0.groups[KeyOf(spec)].cursor, b2.groups[KeyOf(spec)].cursor);
  }

  lemma NewEnd(
    d0: Db, b0: Bus, spec: Spec, claimed: seq<nat>, count: nat, fates: nat -> Fate, alerts: nat -> EventId, now: int,
    d1: Db, b1: Bus, d2: Db, b2: Bus, m: nat)
    requires Pass(d0, b0, spec, claimed, count, fates, alerts, now, d1, b1, d2, b2) && GroupOk(b0, spec)
    requires forall i :: 0 <= i < |claimed| ==> claimed[i] in b0.groups[KeyOf(spec)].pending
    requires KeyOf(spec) in b2.groups && b0.groups[KeyOf(spec)].cursor <= m < b2.groups[KeyOf(spec)].cursor
    ensures m < |Stream(b2, spec.topic)|
    ensures Ended(d2, b2, spec, m, Stream(b2, spec.topic)[m], fates(m), Attempts(b0, RetryKey(KeyOf(spec), m)), b0.nextEntry)
  {
    NewPending(d0, b0, spec, claimed, count, fates, alerts, now, d1, b1, d2, b2, m);
    var unread := Unread(b1, spec, count);
    AllEnd(d1, Deliver(b1, KeyOf(spec), |unread|), spec, unread, fates, alerts, now, m, b0.nextEntry);
  }

  lemma ClaimedEnd(
    d0: Db, b0: Bus, spec: Spec, claimed: seq<nat>, count: nat, fates: nat -> Fate, alerts: nat -> EventId, now: int,
    d1: Db, b1: Bus, d2: Db, b2: Bus, m: nat)
    requires Pass(d0, b0, spec, claimed, count, fates, alerts, now, d1, b1, d2, b2) && GroupOk(b0, spec)
    requires m in claimed && Apart(claimed) && m in b0.groups[KeyOf(spec)].pending
    ensures Ended(d2, b2, spec, m, Stream(b0, spec.topic)[m], fates(m), Attempts(b0, RetryKey(KeyOf(spec), m)), b0.nextEntry)
  {
    var (e, tries) := (Stream(b0, spec.topic)[m], Attempts(b0, RetryKey(KeyOf(spec), m)));
    PassMoves(d0, b0, spec, claimed, count, fates, alerts, now, d1, b1, d2, b2);
    AllEnd(d0, b0, spec, claimed, fates, alerts, now, m, b0.nextEntry);
    NewOnes(b1, spec, count);
    var unread := Unread(b1, spec, count);
    InPositions(b0.groups[KeyOf(spec)].cursor, b2.groups[KeyOf(spec)].cursor);
    assert Ended(d1, Deliver(b1, KeyOf(spec), |unread|), spec, m, e, fates(m), tries, b0.nextEntry);
    EndedStaysOver(d1, Deliver(b1, KeyOf(spec), |unread|), spec, unread, fates, alerts, now, m, e, fates(m), tries, b0.nextEntry);
  }

  /** The message has ended so, by the failures and the queue there were before the pass. */
  ghost predicate EndedSince(b0: Bus, d: Db, b: Bus, spec: Spec, m: nat, fate: Fate) {
    && m < |Stream(b, spec.topic)|
    && Ended(d, b, spec, m, Stream(b, spec.topic)[m], fate, Attempts(b0, RetryKey(KeyOf(spec), m)), b0.nextEntry)
  }

  lemma PassEnds(
    v0: State, d0: Db, b0: Bus, spec: Spec, claimed: seq<nat>, count: nat, fates: nat -> Fate, alerts: nat -> EventId, now: int,
    d1: Db, b1: Bus, d2: Db, b2: Bus)
    requires Inv(v0) && v0.bus == b0 && Pass(d0, b0, spec, claimed, count, fates, alerts, now, d1, b1, d2, b2)
    requires KeyOf(spec) in b0.groups && forall i :: 0 <= i < |claimed| ==> claimed[i] in b0.groups[KeyOf(spec)].pending
    ensures var (g, from, length) := (KeyOf(spec), b0.groups[KeyOf(spec)].cursor, |Stream(b1, spec.topic)|);
            && |Stream(b0, spec.topic)| <= length <= |Stream(b2, spec.topic)| && from <= length
            && (spec.topic != ALERTS ==> length == |Stream(b0, spec.topic)|)
            && g in b2.groups && b2.groups[g].cursor == from + Min(count, length - from)
            && |Unread(b1, spec, count)| == b2.groups[g].cursor - from
            && (forall m :: from <= m < b2.groups[g].cursor ==> EndedSince(b0, d2, b2, spec, m, fates(m)))
            && (Apart(claimed) ==> forall m :: m in claimed ==> EndedSince(b0, d2, b2, spec, m, fates(m)))
  {
    assert GroupOk(b0, spec) by { assert GroupsOk(b0); }
    PassMoves(d0, b0, spec, claimed, count, fates, alerts, now, d1, b1, d2, b2);
    forall m | b0.groups[KeyOf(spec)].cursor <= m < b2.groups[KeyOf(spec)].cursor
      ensures EndedSince(b0, d2, b2, spec, m, fates(m))
    {
      NewEnd(d0, b0, spec, claimed, count, fates, alerts, now, d1, b1, d2, b2, m);
    }
    if Apart(claimed) {
      forall m | m in claimed
        ensures EndedSince(b0, d2, b2, spec, m, fates(m))
      {
        ClaimedEnd(d0, b0, spec, claimed, count, fates, alerts, now, d1, b1, d2, b2, m);
      }
    }
  }

  class Plane {
    const specs: set<Spec>
    var clock: int
    var db: Db
    var bus: Bus
    ghost var workers: map<nat, Worker>   // the processes alive, this one among them

    ghost function View(): State
      reads this
    {
      State(specs, clock, db, bus, workers)
    }

    constructor (specs: set<Spec>)
      ensures Init(View()) && this.specs == specs
    {
      this.specs := specs;
      clock := 0;
      db := Db(map[], map[], map[], map[]);
      bus := Bus(map[], map[], map[], 0, map[]);
      workers := map[];
    }

    /** `emit`: one row in the caller's transaction; an unknown type or a bad payload adds nothing. */
    method EmitEvent(id: EventId, topic: Topic, known: set<Topic>, payloadOk: bool) returns (ok: bool)
      requires id !in db.outbox
      modifies this`db
      ensures ok == (topic in known && payloadOk)
      ensures ok ==> db == old(db).(outbox := old(db).outbox[id := Row(topic, false)])
      ensures !ok ==> db == old(db)
      ensures Reaches(old(View()), View())
    {
      Here(View());
      ok := topic in known && payloadOk;
      if ok {
        db := db.(outbox := db.outbox[id := Row(topic, false)]);
        OneMore(old(View()), old(View()), Env(Emit(id, topic)), View());
      }
    }

    /** XADD of one claimed row. */
    method RelayOne(ghost v0: State, ghost w: nat, rows: seq<EventId>, i: nat)
      requires w in workers && workers[w] == Publisher(rows, i) && i < |rows| && rows[i] in db.outbox && Reaches(v0, View())
      modifies this`bus, this`workers
      ensures Reaches(v0, View()) && workers == old(workers)[w := Publisher(rows, i + 1)]
      ensures bus == XAdd(old(bus), db.outbox[rows[i]].topic, Event(rows[i], db.outbox[rows[i]].topic))
    {
      ghost var v := View();
      var topic := db.outbox[rows[i]].topic;
      bus := XAdd(bus, topic, Event(rows[i], topic));
      workers := workers[w := Publisher(rows, i + 1)];
      RelayStep(v0, v, w, rows, i);
    }

    /** The mark and the commit of a relayed batch. */
    method MarkBatch(ghost v0: State, ghost w: nat, rows: seq<EventId>)
      requires w in workers && workers[w] == Publisher(rows, |rows|) && Reaches(v0, View())
      modifies this`db, this`workers
      ensures Reaches(v0, View()) && workers == old(workers) - {w} && db == MarkRows(old(db), rows)
    {
      MarkStep(v0, View(), w, rows);
      db := MarkRows(db, rows);
      workers := workers - {w};
    }

    /** A process ends wherever it stands. */
    method Die(ghost v0: State, ghost w: nat)
      requires Reaches(v0, View())
      modifies this`workers
      ensures Reaches(v0, View()) && workers == old(workers) - {w}
    {
      StopStep(v0, View(), w);
      workers := workers - {w};
    }

    /** The relaying loop, for the first `n` rows. */
    method RelayRows(ghost v0: State, ghost w: nat, rows: seq<EventId>, n: nat)
      requires w in workers && workers[w] == Publisher(rows, 0) && n <= |rows| && Reaches(v0, View())
      requires forall i :: 0 <= i < |rows| ==> rows[i] in db.outbox
      modifies this`bus, this`workers
      ensures Reaches(v0, View()) && workers == old(workers)[w := Publisher(rows, n)]
      ensures bus == Relays(old(bus), db.outbox, rows[..n])
    {
      var i := 0;
      while i < n
        invariant 0 <= i <= n && workers == old(workers)[w := Publisher(rows, i)]
        invariant bus == Relays(old(bus), db.outbox, rows[..i])
        invariant Reaches(v0, View())
      {
        RelaysNext(old(bus), db.outbox, rows, i);
        RelayOne(v0, w, rows, i);
        i := i + 1;
      }
    }

    /** `publish_batch`, dying after `life` of its effects: XADD row by row, then mark and commit. */
    method PublishBatch(ghost w: nat, rows: seq<EventId>, life: nat) returns (relayed: nat)
      requires w !in workers
      requires forall i :: 0 <= i < |rows| ==> rows[i] in db.outbox && !db.outbox[rows[i]].published
      modifies this`db, this`bus, this`workers
      ensures Reaches(old(View()), View()) && workers == old(workers)
      ensures life > |rows| ==> relayed == |rows| && db == MarkRows(old(db), rows) && bus == Relays(old(bus), old(db).outbox, rows)
      ensures life <= |rows| ==> relayed == 0 && db == old(db) && bus == Relays(old(bus), old(db).outbox, rows[..life])
    {
      ghost var v0 := View();
      Here(v0);
      workers := workers[w := Publisher(rows, 0)];
      StartStep(v0, v0, w, rows);
      RelayRows(v0, w, rows, if life < |rows| then life else |rows|);
      if life > |rows| {
        assert rows[..|rows|] == rows;
        MarkBatch(v0, w, rows);
        relayed := |rows|;
      } else {
        Die(v0, w);
        relayed := 0;
      }
      assert workers == old(workers);
    }

    /** XADD, then XDEL, of the first of the entries left. */
    method ReplayOne(ghost v0: State, ghost w: nat, topic: Topic, ghost entries: seq<nat>, ghost events: seq<Event>, entry: nat, event: Event)
      requires w in workers && workers[w] == Replayer(topic, entries, events, false) && Reaches(v0, View())
      requires |entries| == |events| > 0 && entries[0] == entry && events[0] == event
      modifies this`bus, this`workers
      ensures Reaches(v0, View()) && workers == old(workers)[w := Replayer(topic, entries[1..], events[1..], false)]
      ensures bus == DlqDelete(XAdd(old(bus), topic, event), entry)
    {
      ghost var v := View();
      ReplayStep(v0, v, w, topic, entries, events);
      bus := XAdd(bus, topic, event);
      bus := DlqDelete(bus, entry);
      workers := workers[w := Replayer(topic, entries[1..], events[1..], false)];
    }

    /** The replay loop, for the first `n` entries. */
    method ReplayFirst(ghost v0: State, ghost w: nat, topic: Topic, entries: seq<nat>, events: seq<Event>, n: nat)
      requires w in workers && workers[w] == Replayer(topic, entries, events, false) && n <= |entries| && Reaches(v0, View())
      requires (forall i :: 0 <= i < |entries| ==> entries[i] in bus.dlq) && events == ReadEntries(bus, entries)
      modifies this`bus, this`workers
      ensures Reaches(v0, View()) && workers == old(workers)[w := Replayer(topic, entries[n..], events[n..], false)]
      ensures bus == ReplayedTo(old(bus), topic, entries, n)
    {
      var i := 0;
      while i < n
        invariant 0 <= i <= n && workers == old(workers)[w := Replayer(topic, entries[i..], events[i..], false)]
        invariant bus == ReplayedTo(old(bus), topic, entries, i)
        invariant Reaches(v0, View())
      {
        assert entries[i..][1..] == entries[i + 1..] && events[i..][1..] == events[i + 1..];
        ReplayOne(v0, w, topic, entries[i..], events[i..], entries[i], events[i]);
        i := i + 1;
      }
    }

    /**
      `replay_dlq`: the oldest entries of the type's queue, each back on its stream before it
      leaves the queue; the process may die after `life` of them.
     */
    method ReplayDlq(ghost w: nat, topic: Topic, limit: nat, life: nat) returns (replayed: nat)
      requires w !in workers
      modifies this`bus, this`workers
      ensures Reaches(old(View()), View()) && workers == old(workers)
      ensures var oldest := Oldest(old(bus), topic, limit);
              replayed == (if life < |oldest| then life else |oldest|) && bus == ReplayedTo(old(bus), topic, oldest, replayed)
    {
      ghost var v0 := View();
      var entries := Oldest(bus, topic, limit);
      var events := ReadEntries(bus, entries);
      Here(v0);
      workers := workers[w := Replayer(topic, entries, events, false)];
      FetchStep(v0, v0, w, topic, entries);
      replayed := if life < |entries| then life else |entries|;
      ReplayFirst(v0, w, topic, entries, events, replayed);
      Die(v0, w);
      assert workers == old(workers);
    }

    /** The envelope is on the dead-letter queue, and the alert out, before anything is acked. */
    method DeadLetterPoison(ghost v0: State, ghost w: nat, ghost rest: seq<nat>, spec: Spec, msg: nat, alert: EventId)
      requires w in workers && workers[w] == Consumer(spec, [msg] + rest, Poisoned) && msg < |Stream(bus, spec.topic)|
      requires Reaches(v0, View())
      modifies this`bus, this`workers
      ensures Reaches(v0, View()) && workers == old(workers)[w := Consumer(spec, [msg] + rest, Alerted)]
      ensures bus == XAdd(DlqAdd(old(bus), Stream(old(bus), spec.topic)[msg]), ALERTS, Event(alert, ALERTS))
    {
      ghost var v := View();
      HandleStep(v0, v, w, DeadLetter);
      bus := DlqAdd(bus, Stream(bus, spec.topic)[msg]);
      workers := workers[w := Consumer(spec, [msg] + rest, DeadLettered)];
      v := View();
      HandleStep(v0, v, w, Alert(alert));
      bus := XAdd(bus, ALERTS, Event(alert, ALERTS));
      workers := workers[w := Consumer(spec, [msg] + rest, Alerted)];
    }

    /** XACK, then the retry state of the message goes. */
    method AckAndForget(ghost v0: State, ghost w: nat, ghost rest: seq<nat>, spec: Spec, msg: nat)
      requires w in workers && workers[w].Consumer? && workers[w].spec == spec && workers[w].queue == [msg] + rest
      requires workers[w].pc == Committed || workers[w].pc == Alerted
      requires KeyOf(spec) in bus.groups && msg < |Stream(bus, spec.topic)|
      requires Reaches(v0, View())
      modifies this`bus, this`workers
      ensures Reaches(v0, View()) && workers == old(workers)[w := Consumer(spec, rest, Idle)]
      ensures bus == ForgetRetries(XAck(old(bus), KeyOf(spec), msg), RetryKey(KeyOf(spec), msg))
    {
      ghost var v := View();
      HandleStep(v0, v, w, Ack);
      bus := XAck(bus, KeyOf(spec), msg);
      workers := workers[w := Consumer(spec, [msg] + rest, Acked)];
      v := View();
      HandleStep(v0, v, w, Cleanup);
      bus := ForgetRetries(bus, RetryKey(KeyOf(spec), msg));
      workers := workers[w := Consumer(spec, rest, Idle)];
      assert ([msg] + rest)[1..] == rest;
    }

    /** `_dedupe_and_handle`: INSERT ... ON CONFLICT DO NOTHING, the handler if the row is new, commit. */
    method DedupeAndHandle(ghost v0: State, ghost w: nat, ghost rest: seq<nat>, spec: Spec, msg: nat, fate: Fate) returns (ok: bool)
      requires w in workers && workers[w] == Consumer(spec, [msg] + rest, Idle) && msg < |Stream(bus, spec.topic)|
      requires forall v :: v in workers ==> !Holds(bus, workers[v], Key(spec.name, Stream(bus, spec.topic)[msg].id))
      requires Reaches(v0, View())
      modifies this`db, this`workers
      ensures Reaches(v0, View()) && ok == (fate == Succeeds)
      ensures workers == old(workers)[w := Consumer(spec, [msg] + rest, if ok then Committed else Failed)]
      ensures db == DbAfter(old(db), Key(spec.name, Stream(bus, spec.topic)[msg].id), fate, clock)
    {
      var key := Key(spec.name, Stream(bus, spec.topic)[msg].id);
      var inserted := key !in db.dedupe;
      HandleStep(v0, View(), w, Begin(clock));
      workers := workers[w := Consumer(spec, [msg] + rest, if inserted then Inserted(clock) else Skipped)];
      HandleStep(v0, View(), w, match fate case Succeeds => Commit case Raises => Raise case CommitsThenRaises => CommitThenRaise);
      if fate != Raises && inserted {
        db := CommitRow(db, key, clock);
      }
      ok := fate == Succeeds;
      workers := workers[w := Consumer(spec, [msg] + rest, if ok then Committed else Failed)];
    }

    /** HINCRBY on the retry hash; the message stays pending until the sixth failure. */
    method CountFailure(ghost v0: State, ghost w: nat, ghost rest: seq<nat>, spec: Spec, msg: nat) returns (poisoned: bool)
      requires w in workers && workers[w] == Consumer(spec, [msg] + rest, Failed) && msg < |Stream(bus, spec.topic)|
      requires Reaches(v0, View())
      modifies this`bus, this`workers
      ensures Reaches(v0, View()) && poisoned == (Attempts(old(bus), RetryKey(KeyOf(spec), msg)) >= DLQ_AFTER)
      ensures workers == old(workers)[w := if poisoned then Consumer(spec, [msg] + rest, Poisoned) else Consumer(spec, rest, Idle)]
      ensures bus == SetRetries(old(bus), RetryKey(KeyOf(spec), msg), Attempts(old(bus), RetryKey(KeyOf(spec), msg)) + 1)
    {
      var retry := RetryKey(KeyOf(spec), msg);
      var attempts := Attempts(bus, retry) + 1;
      HandleStep(v0, View(), w, Count);
      bus := SetRetries(bus, retry, attempts);
      poisoned := attempts > DLQ_AFTER;
      workers := workers[w := if poisoned then Consumer(spec, [msg] + rest, Poisoned) else Consumer(spec, rest, Idle)];
      assert ([msg] + rest)[1..] == rest;
    }

    /**
      `_process`: dedupe and handle, then ack; or count the failure and, past the limit,
      dead-letter the envelope, raise the alert and ack the poison message.
     */
    method Process(ghost w: nat, ghost rest: seq<nat>, spec: Spec, msg: nat, fate: Fate, alert: EventId)
      requires w in workers && workers[w] == Consumer(spec, [msg] + rest, Idle)
      requires KeyOf(spec) in bus.groups && msg < |Stream(bus, spec.topic)|
      requires forall v :: v in workers ==> !Holds(bus, workers[v], Key(spec.name, Stream(bus, spec.topic)[msg].id))
      modifies this`db, this`bus, this`workers
      ensures Reaches(old(View()), View()) && workers == old(workers)[w := Consumer(spec, rest, Idle)]
      ensures db == DbAfter(old(db), Key(spec.name, Stream(old(bus), spec.topic)[msg].id), fate, clock)
      ensures bus == BusAfter(old(bus), spec, msg, fate == Succeeds, alert)
    {
      ghost var v0 := View();
      Here(v0);
      var ok := DedupeAndHandle(v0, w, rest, spec, msg, fate);
      if !ok {
        var poisoned := CountFailure(v0, w, rest, spec, msg);
        if !poisoned {
          return;
        }
        DeadLetterPoison(v0, w, rest, spec, msg, alert);
      }
      AckAndForget(v0, w, rest, spec, msg);
    }

    /** One message of a reply. */
    method ProcessAt(
      ghost v0: State, ghost w: nat, spec: Spec, msgs: seq<nat>, i: nat, ghost first: map<nat, Worker>, fate: Fate, alert: EventId)
      requires Reaches(v0, View()) && i < |msgs| && w in first && workers == first[w := Consumer(spec, msgs[i..], Idle)]
      requires Ready(bus, spec, msgs[i..]) && Unheld(bus, first, w, spec, msgs[i..]) && Seated(bus, first)
      modifies this`db, this`bus, this`workers
      ensures Reaches(v0, View()) && workers == first[w := Consumer(spec, msgs[i + 1..], Idle)]
      ensures db == DbAfter(old(db), Key(spec.name, Stream(old(bus), spec.topic)[msgs[i]].id), fate, clock)
      ensures bus == BusAfter(old(bus), spec, msgs[i], fate == Succeeds, alert)
      ensures Unheld(bus, first, w, spec, msgs[i + 1..]) && Seated(bus, first)
    {
      ghost var v := View();
      assert msgs[i..] == [msgs[i]] + msgs[i + 1..];
      NextUnheld(bus, first, w, spec, msgs, i, fate == Succeeds, alert);
      Process(w, msgs[i + 1..], spec, msgs[i], fate, alert);
      ReachesOn(v0, v, View());
    }

    /** `_process` on each message of one reply, in order. */
    method ProcessAll(ghost w: nat, spec: Spec, msgs: seq<nat>, fates: nat -> Fate, alerts: nat -> EventId) returns (handled: nat)
      requires w in workers && workers[w] == Consumer(spec, msgs, Idle) && Ready(bus, spec, msgs)
      requires Unheld(bus, workers, w, spec, msgs) && Seated(bus, workers)
      modifies this`db, this`bus, this`workers
      ensures Reaches(old(View()), View()) && workers == old(workers)[w := Consumer(spec, [], Idle)]
      ensures handled == |msgs| && (db, bus) == Drained(old(db), old(bus), spec, msgs, fates, alerts, clock)
    {
      ghost var v0 := View();
      Here(v0);
      handled := 0;
      while handled < |msgs|
        invariant 0 <= handled <= |msgs|
        invariant Ready(bus, spec, msgs[handled..]) && Unheld(bus, old(workers), w, spec, msgs[handled..]) && Seated(bus, old(workers))
        invariant workers == old(workers)[w := Consumer(spec, msgs[handled..], Idle)]
        invariant Drained(db, bus, spec, msgs[handled..], fates, alerts, clock) == Drained(old(db), old(bus), spec, msgs, fates, alerts, clock)
        invariant Reaches(v0, View())
      {
        DrainNext(db, bus, spec, msgs, handled, fates, alerts, clock);
        ProcessAt(v0, w, spec, msgs, handled, old(workers), fates(msgs[handled]), alerts(msgs[handled]));
        handled := handled + 1;
      }
    }

    /** XAUTOCLAIM: messages a dead consumer left pending are handled here. */
    method ReclaimIdle(ghost w: nat, spec: Spec, claimed: seq<nat>, fates: nat -> Fate, alerts: nat -> EventId) returns (handled: nat)
      requires w !in workers && spec in specs && KeyOf(spec) in bus.groups && Inv(View())
      requires forall i :: 0 <= i < |claimed| ==> claimed[i] in bus.groups[KeyOf(spec)].pending
      requires Unheld(bus, workers, w, spec, claimed)
      modifies this`db, this`bus, this`workers
      ensures Reaches(old(View()), View()) && workers == old(workers)
      ensures Ready(old(bus), spec, claimed) && handled == |claimed|
      ensures (db, bus) == Drained(old(db), old(bus), spec, claimed, fates, alerts, clock)
    {
      ghost var v0 := View();
      Here(v0);
      ReadyIfPending(v0, spec, claimed);
      SeatedIfInv(v0);
      Joins(bus, workers, w, spec, claimed);
      workers := workers[w := Consumer(spec, claimed, Idle)];
      OneMore(v0, v0, Con(w, Reclaim(spec, claimed)), View());
      ghost var v := View();
      handled := ProcessAll(w, spec, claimed, fates, alerts);
      ReachesOn(v0, v, View());
      StopStep(v0, View(), w);
      workers := workers - {w};
      assert workers == old(workers);
    }

    /** The delivery itself: the cursor moves past the messages, and they are pending. */
    method Take(ghost v0: State, ghost w: nat, spec: Spec, count: nat) returns (unread: seq<nat>)
      requires v0 == View() && w !in workers && spec in specs && KeyOf(spec) in bus.groups && Inv(v0)
      requires Unheld(bus, workers, w, spec, Unread(bus, spec, count))
      modifies this`bus, this`workers
      ensures Reaches(v0, View()) && unread == Unread(old(bus), spec, count)
      ensures workers == old(workers)[w := Consumer(spec, unread, Idle)] && bus == Deliver(old(bus), KeyOf(spec), |unread|)
      ensures Ready(bus, spec, unread) && Unheld(bus, workers, w, spec, unread) && Seated(bus, workers)
    {
      Here(v0);
      assert GroupsOk(bus);
      unread := Unread(bus, spec, count);
      SeatedIfInv(v0);
      DeliverStays(bus, workers, w, spec, unread, |unread|);
      Joins(Deliver(bus, KeyOf(spec), |unread|), workers, w, spec, unread);
      ReadStep(v0, v0, w, spec, |unread|);
      bus := Deliver(bus, KeyOf(spec), |unread|);
      workers := workers[w := Consumer(spec, unread, Idle)];
    }

    /** XREADGROUP with `>`: up to `count` messages nobody in the group has seen. */
    method ReadNew(ghost w: nat, spec: Spec, count: nat, fates: nat -> Fate, alerts: nat -> EventId) returns (handled: nat)
      requires w !in workers && spec in specs && KeyOf(spec) in bus.groups && Inv(View())
      requires Unheld(bus, workers, w, spec, Unread(bus, spec, count))
      modifies this`db, this`bus, this`workers
      ensures Reaches(old(View()), View()) && workers == old(workers)
      ensures var unread := Unread(old(bus), spec, count);
              && Ready(Deliver(old(bus), KeyOf(spec), |unread|), spec, unread) && handled == |unread|
              && (db, bus) == Drained(old(db), Deliver(old(bus), KeyOf(spec), |unread|), spec, unread, fates, alerts, clock)
    {
      ghost var v0 := View();
      var unread := Take(v0, w, spec, count);
      ghost var v := View();
      handled := ProcessAll(w, spec, unread, fates, alerts);
      ReachesOn(v0, v, View());
      StopStep(v0, View(), w);
      workers := workers - {w};
      assert workers == old(workers);
    }

    /**
      `drain_once`: idle pending messages first, then new ones; each is handled in turn.  `length` is
      that of the stream once the reclaimed ones are done, some of which may have raised alerts on it.
     */
    method DrainOnce(ghost w: nat, spec: Spec, claimed: seq<nat>, count: nat, fates: nat -> Fate, alerts: nat -> EventId)
      returns (handled: nat, ghost length: nat)
      requires w !in workers && spec in specs && KeyOf(spec) in bus.groups && Inv(View())
      requires forall i :: 0 <= i < |claimed| ==> claimed[i] in bus.groups[KeyOf(spec)].pending
      requires Unheld(bus, workers, w, spec, claimed)
      requires Ready(bus, spec, claimed) ==>
                 var b1 := Drained(db, bus, spec, claimed, fates, alerts, clock).1;
                 Unheld(b1, workers, w, spec, Unread(b1, spec, count))
      modifies this`db, this`bus, this`workers
      ensures Reaches(old(View()), View()) && workers == old(workers)
      ensures exists d1, b1 :: Pass(old(db), old(bus), spec, claimed, count, fates, alerts, clock, d1, b1, db, bus)
      ensures |Stream(old(bus), spec.topic)| <= length <= |Stream(bus, spec.topic)|
      ensures spec.topic != ALERTS ==> length == |Stream(old(bus), spec.topic)|
      ensures KeyOf(spec) in bus.groups && old(bus).groups[KeyOf(spec)].cursor <= length
      ensures var (from, until) := (old(bus).groups[KeyOf(spec)].cursor, bus.groups[KeyOf(spec)].cursor);
              && until == from + Min(count, length - from) && handled == |claimed| + (until - from)
              && forall m :: from <= m < until ==> EndedSince(old(bus), db, bus, spec, m, fates(m))
      ensures Apart(claimed) ==> forall m :: m in claimed ==> EndedSince(old(bus), db, bus, spec, m, fates(m))
    {
      ghost var (v0, d0, b0) := (View(), db, bus);
      handled := ReclaimIdle(w, spec, claimed, fates, alerts);
      ghost var (v, d1, b1) := (View(), db, bus);
      ReachesKeeps(v0, v);
      DrainKeepsGroup(d0, b0, spec, claimed, fates, alerts, clock);
      var more := ReadNew(w, spec, count, fates, alerts);
      ReachesOn(v0, v, View());
      handled := handled + more;
      length := |Stream(b1, spec.topic)|;
      assert Pass(d0, b0, spec, claimed, count, fates, alerts, clock, d1, b1, db, bus);
      PassEnds(v0, d0, b0, spec, claimed, count, fates, alerts, clock, d1, b1, db, bus);
    }

    /** `prune_dedupe`: rows created before the cutoff go, all others stay. */
    method PruneDedupe(now: int) returns (removed: nat)
      modifies this`db
      ensures Reaches(old(View()), View())
      ensures forall k :: k in db.dedupe <==> k in old(db).dedupe && old(db).dedupe[k] >= now - 30 * 24 * 3_600
      ensures forall k :: k in db.dedupe ==> db.dedupe[k] == old(db).dedupe[k]
      ensures removed == |Stale(old(db), now - RETENTION)| && db.outbox == old(db).outbox && db.commits == old(db).commits
    {
      Here(View());
      removed := |Stale(db, now - RETENTION)|;
      db := PruneRows(db, now - RETENTION);
      OneMore(old(View()), old(View()), Env(Prune(now - RETENTION)), View());
    }
  }
}
