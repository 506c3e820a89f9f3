/**
  Where a committed event is, for one consumer group.  `Live` names the copies that still count:
  a row being marked, a message being acked off the stream after dead-lettering and an entry
  being deleted after replay are already spoken for and do not.  `Track` follows the event from
  one step to the next, so the no-loss theorem is an explicit itinerary and not just existence.
 */
module EventDelivery {
  import opened Events
  import opened EventSafety

  datatype Source =
    | InOutbox
    | InStream(pos: nat)
    | InPending(pos: nat)
    | InDedupe(spec: Spec)
    | InDlq(entry: nat)

  /** A row some live publisher has relayed and is about to mark. */
  ghost predicate Relayed(w: Worker, id: EventId) {
    w.Publisher? && exists i :: 0 <= i < w.done <= |w.rows| && w.rows[i] == id
  }

  /** A dead-lettered message on its way to being acked. */
  predicate Leaving(w: Worker, g: GroupKey, i: nat) {
    && w.Consumer? && KeyOf(w.spec) == g && |w.queue| > 0 && w.queue[0] == i
    && (w.pc == DeadLettered || w.pc == Alerted)
  }

  /** A replayed dead letter on its way to being deleted. */
  predicate Replayed(w: Worker, d: nat) {
    w.Replayer? && w.added && |w.entries| > 0 && w.entries[0] == d
  }

  ghost predicate Live(s: State, g: GroupKey, id: EventId, src: Source) {
    match src
    case InOutbox =>
      && id in s.db.outbox && !s.db.outbox[id].published
      && (forall w :: w in s.workers ==> !Relayed(s.workers[w], id))
    case InStream(i) =>
      GroupOf(s.bus, g).cursor <= i < |Stream(s.bus, g.topic)| && Stream(s.bus, g.topic)[i].id == id
    case InPending(i) =>
      && i in GroupOf(s.bus, g).pending && i < |Stream(s.bus, g.topic)| && Stream(s.bus, g.topic)[i].id == id
      && (forall w :: w in s.workers ==> !Leaving(s.workers[w], g, i))
    case InDedupe(spec) => spec in s.specs && KeyOf(spec) == g && Times(s.db.commits, Key(spec.name, id)) > 0
    case InDlq(d) =>
      && d in s.bus.dlq && s.bus.dlq[d] == Event(id, g.topic)
      && (forall w :: w in s.workers ==> !Replayed(s.workers[w], d))
  }

  /** A consumer past its insert on the committed or duplicate path has a committed row behind it. */
  ghost predicate DoneOk(s: State) {
    forall w :: w in s.workers && Working(s.bus, s.workers[w]) && (s.workers[w].pc == Committed || s.workers[w].pc == Skipped)
                ==> Times(s.db.commits, DedupeKey(s.bus, s.workers[w])) > 0
  }

  ghost predicate Inv(s: State) {
    Shape(s) && Counted(s.db) && Locked(s) && DoneOk(s)
  }

  lemma CommitsGrow(s: State, a: Action, k: Key)
    requires Enabled(s, a)
    ensures Times(s.db.commits, k) <= Times(Next(s, a).db.commits, k)
  {
  }

  lemma KeepsDone(s: State, a: Action)
    requires Inv(s) && Enabled(s, a)
    ensures DoneOk(Next(s, a))
  {
    var s' := Next(s, a);
    StoresStep(s, a);
    forall v | v in s'.workers && Working(s'.bus, s'.workers[v]) && (s'.workers[v].pc == Committed || s'.workers[v].pc == Skipped)
      ensures Times(s'.db.commits, DedupeKey(s'.bus, s'.workers[v])) > 0
    {
      OthersStay(s, a, v);
      assert v in s.workers && s'.workers[v].spec == s.workers[v].spec && s'.workers[v].queue == s.workers[v].queue;
      assert WorkerOk(s.specs, s.db, s.bus, s.workers[v]);
      SameMessage(s.bus, s'.bus, s.workers[v]);
      CommitsGrow(s, a, DedupeKey(s.bus, s.workers[v]));
    }
  }

  lemma KeepsInv(s: State, a: Action)
    requires Inv(s) && Enabled(s, a)
    ensures Inv(Next(s, a))
  {
    KeepsShape(s, a);
    KeepsCounted(s, a);
    KeepsLocked(s, a);
    KeepsDone(s, a);
  }

  // ---- Following one event through one step --------------------------------------------------

  /** Where the copy named by `src` is after action `a`. */
  ghost function Track(s: State, a: Action, g: GroupKey, id: EventId, src: Source): Source {
    match src
    case InOutbox =>
      if a.Pub? && a.p.Relay? && EnabledPub(s, a.w, a.p) && s.workers[a.w].rows[s.workers[a.w].done] == id
      then InStream(|Stream(s.bus, g.topic)|) else InOutbox
    case InStream(i) =>
      if a.Con? && a.c.Read? && KeyOf(a.c.spec) == g && i < GroupOf(s.bus, g).cursor + a.c.count
      then InPending(i) else src
    case InPending(i) =>
      if a.Con? && a.w in s.workers && s.workers[a.w].Consumer? && KeyOf(s.workers[a.w].spec) == g
         && |s.workers[a.w].queue| > 0 && s.workers[a.w].queue[0] == i
      then
        if a.c.Ack? then InDedupe(s.workers[a.w].spec)
        else if a.c.DeadLetter? then InDlq(s.bus.nextEntry) else src
      else src
    case InDedupe(_) => src
    case InDlq(d) =>
      if a.Rep? && a.r.Add? && a.w in s.workers && s.workers[a.w].Replayer? && |s.workers[a.w].entries| > 0
         && s.workers[a.w].entries[0] == d
      then InStream(|Stream(s.bus, g.topic)|) else src
  }

  lemma OutboxMoves(s: State, a: Action, g: GroupKey, id: EventId)
    requires Inv(s) && Enabled(s, a) && Live(s, g, id, InOutbox) && s.db.outbox[id].topic == g.topic
    ensures Live(Next(s, a), g, id, Track(s, a, g, id, InOutbox))
  {
    var s' := Next(s, a);
    if a.Pub? && a.p.Relay? && s.workers[a.w].rows[s.workers[a.w].done] == id {
      assert GroupOf(s'.bus, g) == GroupOf(s.bus, g);
      assert WorkerOk(s.specs, s.db, s.bus, s.workers[a.w]);
      StoresStep(s, a);
    } else {
      if a.Pub? && a.p.Mark? {
        assert !Relayed(s.workers[a.w], id);
        assert id !in s.workers[a.w].rows;
      }
      forall w | w in s'.workers ensures !Relayed(s'.workers[w], id) {
        OthersStay(s, a, w);
        if w in s.workers { assert !Relayed(s.workers[w], id); }
      }
    }
  }

  /** Only a read by the group moves its cursor. */
  lemma CursorStays(s: State, a: Action, g: GroupKey)
    requires Enabled(s, a) && !(a.Con? && a.c.Read? && KeyOf(a.c.spec) == g)
    ensures GroupOf(Next(s, a).bus, g).cursor == GroupOf(s.bus, g).cursor
  {
  }

  lemma StreamMoves(s: State, a: Action, g: GroupKey, id: EventId, i: nat)
    requires Inv(s) && Enabled(s, a) && Live(s, g, id, InStream(i))
    ensures Live(Next(s, a), g, id, Track(s, a, g, id, InStream(i)))
  {
    var s' := Next(s, a);
    StoresStep(s, a);
    assert Stream(s.bus, g.topic) <= Stream(s'.bus, g.topic);
    if a.Con? && a.c.Read? && KeyOf(a.c.spec) == g {
      if i < GroupOf(s.bus, g).cursor + a.c.count { ReadDelivers(s, a.w, a.c, i); }
    } else {
      CursorStays(s, a, g);
    }
  }

  lemma ReadDelivers(s: State, w: nat, c: ConStep, i: nat)
    requires Inv(s) && EnabledCon(s, w, c) && c.Read? && GroupOf(s.bus, KeyOf(c.spec)).cursor <= i
    requires i < GroupOf(s.bus, KeyOf(c.spec)).cursor + c.count
    ensures i in GroupOf(NextCon(s, w, c).bus, KeyOf(c.spec)).pending
    ensures forall v :: v in NextCon(s, w, c).workers ==> !Leaving(NextCon(s, w, c).workers[v], KeyOf(c.spec), i)
  {
    var g := GroupOf(s.bus, KeyOf(c.spec));
    assert Range(g.cursor, c.count)[i - g.cursor] == i;
    forall v | v in s.workers ensures !Leaving(s.workers[v], KeyOf(c.spec), i) {
      assert WorkerOk(s.specs, s.db, s.bus, s.workers[v]);
    }
  }

  lemma DedupeStays(s: State, a: Action, g: GroupKey, id: EventId, spec: Spec)
    requires Inv(s) && Enabled(s, a) && Live(s, g, id, InDedupe(spec))
    ensures Live(Next(s, a), g, id, InDedupe(spec))
  {
    StoresStep(s, a);
    CommitsGrow(s, a, Key(spec.name, id));
  }

  lemma DlqMoves(s: State, a: Action, g: GroupKey, id: EventId, d: nat)
    requires Inv(s) && Enabled(s, a) && Live(s, g, id, InDlq(d))
    ensures Live(Next(s, a), g, id, Track(s, a, g, id, InDlq(d)))
  {
    var s' := Next(s, a);
    StoresStep(s, a);
    if a.Rep? && a.w in s.workers { assert WorkerOk(s.specs, s.db, s.bus, s.workers[a.w]); }
    if a.Rep? && a.r.Add? && s.workers[a.w].entries[0] == d {
      assert GroupOf(s'.bus, g) == GroupOf(s.bus, g);
    } else {
      forall w | w in s'.workers ensures !Replayed(s'.workers[w], d) {
        OthersStay(s, a, w);
      }
    }
  }

  lemma HandlingKeepsPending(s: State, me: Worker, c: ConStep, g: GroupKey, i: nat)
    requires Working(s.bus, me) && EnabledHandling(s, me, c) && i in GroupOf(s.bus, g).pending
    ensures i in GroupOf(Handle(s, me, c).1, g).pending || (c.Ack? && KeyOf(me.spec) == g && me.queue[0] == i)
  {
  }

  /** Only its own handler takes a message out of a group's pending list. */
  lemma PendingStays(s: State, a: Action, g: GroupKey, i: nat)
    requires Inv(s) && Enabled(s, a) && i in GroupOf(s.bus, g).pending
    ensures i in GroupOf(Next(s, a).bus, g).pending
            || (a.Con? && a.c.Ack? && KeyOf(s.workers[a.w].spec) == g && s.workers[a.w].queue[0] == i)
  {
    if a.Con? && !a.c.Read? && !a.c.Reclaim? { HandlingKeepsPending(s, s.workers[a.w], a.c, g, i); }
  }

  lemma LeavesOnlyByDeadLetter(s: State, a: Action, g: GroupKey, i: nat)
    requires Inv(s) && Enabled(s, a) && (forall w :: w in s.workers ==> !Leaving(s.workers[w], g, i))
    requires !(a.Con? && a.c.DeadLetter? && KeyOf(s.workers[a.w].spec) == g && s.workers[a.w].queue[0] == i)
    ensures forall w :: w in Next(s, a).workers ==> !Leaving(Next(s, a).workers[w], g, i)
  {
    forall w | w in Next(s, a).workers ensures !Leaving(Next(s, a).workers[w], g, i) {
      OthersStay(s, a, w);
      if w in s.workers { assert !Leaving(s.workers[w], g, i); }
    }
  }

  lemma PendingMoves(s: State, a: Action, g: GroupKey, id: EventId, i: nat)
    requires Inv(s) && Enabled(s, a) && Live(s, g, id, InPending(i))
    ensures Live(Next(s, a), g, id, Track(s, a, g, id, InPending(i)))
  {
    if a.Con? && (a.c.Ack? || a.c.DeadLetter?) && KeyOf(s.workers[a.w].spec) == g && s.workers[a.w].queue[0] == i {
      PendingLeaves(s, a, g, id, i);
    } else {
      StoresStep(s, a);
      assert Stream(s.bus, g.topic) <= Stream(Next(s, a).bus, g.topic);
      PendingStays(s, a, g, i);
      LeavesOnlyByDeadLetter(s, a, g, i);
    }
  }

  lemma PendingLeaves(s: State, a: Action, g: GroupKey, id: EventId, i: nat)
    requires Inv(s) && Enabled(s, a) && Live(s, g, id, InPending(i))
    requires a.Con? && (a.c.Ack? || a.c.DeadLetter?) && KeyOf(s.workers[a.w].spec) == g && s.workers[a.w].queue[0] == i
    ensures Live(Next(s, a), g, id, Track(s, a, g, id, InPending(i)))
  {
    var s' := Next(s, a);
    var me := s.workers[a.w];
    assert WorkerOk(s.specs, s.db, s.bus, me);
    assert Current(s.bus, me) == Event(id, g.topic);
    if a.c.DeadLetter? {
      forall w | w in s'.workers ensures !Replayed(s'.workers[w], s.bus.nextEntry) {
        OthersStay(s, a, w);
        if w in s.workers { assert WorkerOk(s.specs, s.db, s.bus, s.workers[w]); }
      }
    } else {
      assert !Leaving(me, g, i);
    }
  }

  lemma Moves(s: State, a: Action, g: GroupKey, id: EventId, src: Source)
    requires Inv(s) && Enabled(s, a) && Live(s, g, id, src)
    requires id in s.db.outbox && s.db.outbox[id].topic == g.topic
    ensures Live(Next(s, a), g, id, Track(s, a, g, id, src))
  {
    match src
    case InOutbox => OutboxMoves(s, a, g, id);
    case InStream(i) => StreamMoves(s, a, g, id, i);
    case InPending(i) => PendingMoves(s, a, g, id, i);
    case InDedupe(spec) => DedupeStays(s, a, g, id, spec);
    case InDlq(d) => DlqMoves(s, a, g, id, d);
  }

  // ---- Theorems about whole runs -------------------------------------------------------------

  ghost predicate Covered(s: State) {
    forall g: GroupKey, id :: id in s.db.outbox && s.db.outbox[id].topic == g.topic ==> exists src :: Live(s, g, id, src)
  }

  lemma KeepsCovered(s: State, a: Action)
    requires Inv(s) && Covered(s) && Enabled(s, a)
    ensures Covered(Next(s, a))
  {
    var s' := Next(s, a);
    StoresStep(s, a);
    forall g: GroupKey, id | id in s'.db.outbox && s'.db.outbox[id].topic == g.topic
      ensures exists src :: Live(s', g, id, src)
    {
      if id in s.db.outbox {
        var src :| Live(s, g, id, src);
        Moves(s, a, g, id, src);
      } else {
        NewRowIsLive(s, a, g, id);
      }
    }
  }

  lemma NewRowIsLive(s: State, a: Action, g: GroupKey, id: EventId)
    requires Inv(s) && Enabled(s, a) && id !in s.db.outbox && id in Next(s, a).db.outbox
    ensures Live(Next(s, a), g, id, InOutbox)
  {
    assert a.Env? && a.e.Emit? && a.e.id == id && Next(s, a).workers == s.workers;
    forall w | w in s.workers ensures !Relayed(s.workers[w], id) {
      assert WorkerOk(s.specs, s.db, s.bus, s.workers[w]);
    }
  }

  lemma {:induction false} RunKeeps(s: State, run: seq<Action>)
    requires Inv(s) && Covered(s) && ValidRun(s, run)
    ensures Inv(Exec(s, run)) && Covered(Exec(s, run))
    decreases |run|
  {
    if run != [] {
      KeepsInv(s, run[0]);
      KeepsCovered(s, run[0]);
      RunKeeps(Next(s, run[0]), run[1..]);
    }
  }

  lemma InitInv(s: State)
    requires Init(s)
    ensures Inv(s) && Covered(s)
  {
  }

  /** A copy of the event in one of the five places, whoever else is at work. */
  ghost predicate Somewhere(s: State, g: GroupKey, id: EventId) {
    || (id in s.db.outbox && !s.db.outbox[id].published)
    || (exists i :: GroupOf(s.bus, g).cursor <= i < |Stream(s.bus, g.topic)| && Stream(s.bus, g.topic)[i] == Event(id, g.topic))
    || (exists i :: i in GroupOf(s.bus, g).pending && i < |Stream(s.bus, g.topic)| && Stream(s.bus, g.topic)[i] == Event(id, g.topic))
    || (exists spec :: spec in s.specs && KeyOf(spec) == g && Times(s.db.commits, Key(spec.name, id)) > 0)
    || (exists d :: d in s.bus.dlq && s.bus.dlq[d] == Event(id, g.topic))
  }

  /** No loss: at every point of every run, each committed event is somewhere for every group. */
  lemma NoEventIsLost(s0: State, run: seq<Action>, g: GroupKey, id: EventId)
    requires Init(s0) && ValidRun(s0, run)
    requires id in Exec(s0, run).db.outbox && Exec(s0, run).db.outbox[id].topic == g.topic
    ensures Somewhere(Exec(s0, run), g, id)
  {
    var s := Exec(s0, run);
    InitInv(s0);
    RunKeeps(s0, run);
    var src :| Live(s, g, id, src);
    match src
    case InStream(i) => assert Stream(s.bus, g.topic)[i] == Event(id, g.topic);
    case InPending(i) => assert Stream(s.bus, g.topic)[i] == Event(id, g.topic);
    case _ =>
  }

  /** A key is committed once more than its row was pruned while the row is there, else as often. */
  lemma {:induction false} HandlerCommitsAtMostOncePerRow(s0: State, run: seq<Action>, k: Key)
    requires Init(s0) && ValidRun(s0, run)
    ensures var d := Exec(s0, run).db;
            Times(d.commits, k) == Times(d.prunes, k) + if k in d.dedupe then 1 else 0
  {
    InitInv(s0);
    RunKeeps(s0, run);
  }

  /** Between two handler commits of one key, its row is pruned; until then there is one commit. */
  lemma NoSecondCommitWithoutPrune(s0: State, before: seq<Action>, after: seq<Action>, k: Key)
    requires Init(s0) && ValidRun(s0, before) && ValidRun(Exec(s0, before), after)
    requires Times(Exec(Exec(s0, before), after).db.prunes, k) == Times(Exec(s0, before).db.prunes, k)
    requires k in Exec(s0, before).db.dedupe
    ensures Times(Exec(Exec(s0, before), after).db.commits, k) == Times(Exec(s0, before).db.commits, k)
    ensures k in Exec(Exec(s0, before), after).db.dedupe
  {
    InitInv(s0);
    RunKeeps(s0, before);
    RunKeeps(Exec(s0, before), after);
    CommitsOnlyGrow(Exec(s0, before), after, k);
  }

  lemma {:induction false} CommitsOnlyGrow(s: State, run: seq<Action>, k: Key)
    requires ValidRun(s, run)
    ensures Times(s.db.commits, k) <= Times(Exec(s, run).db.commits, k)
    decreases |run|
  {
    if run != [] {
      CommitsGrow(s, run[0], k);
      CommitsOnlyGrow(Next(s, run[0]), run[1..], k);
    }
  }

  /** At no time are two handlers inside a transaction for the same (consumer, event). */
  lemma OneHandlerAtATime(s0: State, run: seq<Action>, v: nat, w: nat, k: Key)
    requires Init(s0) && ValidRun(s0, run)
    requires v in Exec(s0, run).workers && w in Exec(s0, run).workers
    requires Holds(Exec(s0, run).bus, Exec(s0, run).workers[v], k) && Holds(Exec(s0, run).bus, Exec(s0, run).workers[w], k)
    ensures v == w
  {
    InitInv(s0);
    RunKeeps(s0, run);
  }

  /** Each prune of the run uses the nightly cutoff, or an earlier one. */
  ghost predicate NightlyPrunes(s: State, run: seq<Action>)
    requires ValidRun(s, run)
    decreases |run|
  {
    run == [] || (
      && (run[0].Env? && run[0].e.Prune? ==> run[0].e.cutoff <= s.clock - RETENTION)
      && NightlyPrunes(Next(s, run[0]), run[1..]))
  }

  lemma {:induction false} ClockOnlyAdvances(s: State, run: seq<Action>)
    requires ValidRun(s, run)
    ensures s.clock <= Exec(s, run).clock
    decreases |run|
  {
    if run != [] { ClockOnlyAdvances(Next(s, run[0]), run[1..]); }
  }

  /** A row a prune does not reach stays as it is, and its handler does not commit again. */
  lemma RowStays(s: State, a: Action, k: Key)
    requires Inv(s) && Enabled(s, a) && k in s.db.dedupe
    requires a.Env? && a.e.Prune? ==> a.e.cutoff <= s.db.dedupe[k]
    ensures var d := Next(s, a).db;
            k in d.dedupe && d.dedupe[k] == s.db.dedupe[k] && Times(d.commits, k) == Times(s.db.commits, k)
  {
    if a.Con? && (a.c.Commit? || a.c.CommitThenRaise?) {
      assert WorkerOk(s.specs, s.db, s.bus, s.workers[a.w]);
    }
  }

  lemma {:induction false} RowStaysOverRuns(s: State, run: seq<Action>, k: Key)
    requires Inv(s) && Covered(s) && ValidRun(s, run) && NightlyPrunes(s, run) && k in s.db.dedupe
    requires Exec(s, run).clock <= s.db.dedupe[k] + RETENTION
    ensures k in Exec(s, run).db.dedupe && Times(Exec(s, run).db.commits, k) == Times(s.db.commits, k)
    decreases |run|
  {
    if run != [] {
      ClockOnlyAdvances(s, run);
      RowStays(s, run[0], k);
      KeepsInv(s, run[0]);
      KeepsCovered(s, run[0]);
      RowStaysOverRuns(Next(s, run[0]), run[1..], k);
    }
  }

  /**
    Whatever is published, redelivered, replayed or pruned nightly in the thirty days after a
    handling began whose row is committed, that event is not handled again by that consumer.
   */
  lemma NotHandledAgainWithinRetention(s0: State, before: seq<Action>, after: seq<Action>, k: Key)
    requires Init(s0) && ValidRun(s0, before) && ValidRun(Exec(s0, before), after)
    requires NightlyPrunes(Exec(s0, before), after) && k in Exec(s0, before).db.dedupe
    requires Exec(Exec(s0, before), after).clock <= Exec(s0, before).db.dedupe[k] + 30 * 24 * 3_600
    ensures var (d, d') := (Exec(s0, before).db, Exec(Exec(s0, before), after).db);
            k in d'.dedupe && Times(d'.commits, k) == Times(d.commits, k)
  {
    InitInv(s0);
    RunKeeps(s0, before);
    RowStaysOverRuns(Exec(s0, before), after, k);
  }
}
