/**
  What every run of the event plane keeps: no committed event is ever lost to a group, and a
  dedupe transaction that ran the handler commits at most once per row lifetime.
 */
module EventSafety {
  import opened Events

  // ---- Structure of the two stores -----------------------------------------------------------

  ghost predicate Typed(b: Bus) {
    forall t, i :: 0 <= i < |Stream(b, t)| ==> Stream(b, t)[i].topic == t
  }

  ghost predicate GroupsOk(b: Bus) {
    forall g :: g in b.groups ==>
                  && b.groups[g].cursor <= |Stream(b, g.topic)|
                  && (forall m :: m in b.groups[g].pending ==> m < b.groups[g].cursor)
  }

  ghost predicate BusOk(b: Bus) {
    Typed(b) && GroupsOk(b) && (forall d :: d in b.dlq ==> d < b.nextEntry)
  }

  /** Streams only grow, groups stay, cursors never move back, entry ids are not reused. */
  ghost predicate BusGrows(b: Bus, b': Bus) {
    && b.nextEntry <= b'.nextEntry
    && (forall t :: Stream(b, t) <= Stream(b', t))
    && (forall g :: g in b.groups ==> g in b'.groups && b.groups[g].cursor <= b'.groups[g].cursor)
    && (forall d :: d in b'.dlq && d < b.nextEntry ==> d in b.dlq && b.dlq[d] == b'.dlq[d])
  }

  ghost predicate DbGrows(d: Db, d': Db) {
    forall id :: id in d.outbox ==> id in d'.outbox && d'.outbox[id].topic == d.outbox[id].topic
  }

  ghost predicate BusStep(b: Bus, b': Bus) {
    BusOk(b') && BusGrows(b, b')
  }

  lemma SameStreams(b: Bus, b': Bus)
    requires b.streams == b'.streams
    ensures forall t :: Stream(b, t) == Stream(b', t)
  {
  }

  lemma XAddKeeps(b: Bus, t: Topic, e: Event)
    requires BusOk(b) && e.topic == t
    ensures BusStep(b, XAdd(b, t, e))
  {
    var b' := XAdd(b, t, e);
    assert forall u :: Stream(b', u) == if u == t then Stream(b, t) + [e] else Stream(b, u);
    assert forall u, i :: 0 <= i < |Stream(b', u)| ==> Stream(b', u)[i].topic == u;
  }

  lemma DeliverKeeps(b: Bus, g: GroupKey, count: nat)
    requires BusOk(b) && GroupOf(b, g).cursor + count <= |Stream(b, g.topic)|
    ensures BusStep(b, Deliver(b, g, count))
  {
    SameStreams(b, Deliver(b, g, count));
  }

  lemma AckKeeps(b: Bus, g: GroupKey, m: nat)
    requires BusOk(b) && g in b.groups
    ensures BusStep(b, XAck(b, g, m))
  {
    SameStreams(b, XAck(b, g, m));
  }

  lemma CreateKeeps(b: Bus, g: GroupKey)
    requires BusOk(b)
    ensures BusStep(b, CreateGroup(b, g))
  {
    SameStreams(b, CreateGroup(b, g));
  }

  lemma DlqKeeps(b: Bus, e: Event, d: nat)
    requires BusOk(b)
    ensures BusStep(b, DlqAdd(b, e)) && BusStep(b, DlqDelete(b, d))
  {
    SameStreams(b, DlqAdd(b, e));
    SameStreams(b, DlqDelete(b, d));
  }

  lemma RetriesKeep(b: Bus, k: RetryKey, n: nat)
    requires BusOk(b)
    ensures BusStep(b, SetRetries(b, k, n)) && BusStep(b, ForgetRetries(b, k))
  {
    SameStreams(b, SetRetries(b, k, n));
    SameStreams(b, ForgetRetries(b, k));
  }

  // ---- Processes -----------------------------------------------------------------------------

  ghost predicate WorkerOk(specs: set<Spec>, d: Db, b: Bus, w: Worker) {
    match w
    case Consumer(spec, queue, pc) =>
      && spec in specs && KeyOf(spec) in b.groups
      && (forall i :: 0 <= i < |queue| ==> queue[i] < b.groups[KeyOf(spec)].cursor)
    case Publisher(rows, done) =>
      done <= |rows| && (forall i :: 0 <= i < |rows| ==> rows[i] in d.outbox)
    case Replayer(topic, entries, events, added) =>
      && |entries| == |events|
      && (added ==> |entries| > 0)
      && (forall i | 0 <= i < |entries| :: entries[i] < b.nextEntry && events[i].topic == topic)
      && (forall i | 0 <= i < |entries| :: entries[i] in b.dlq ==> b.dlq[entries[i]] == events[i])
  }

  ghost predicate WorkersOk(s: State) {
    forall w :: w in s.workers ==> WorkerOk(s.specs, s.db, s.bus, s.workers[w])
  }

  ghost predicate Shape(s: State) {
    BusOk(s.bus) && WorkersOk(s)
  }

  lemma WorkerStaysOk(specs: set<Spec>, d: Db, b: Bus, d': Db, b': Bus, w: Worker)
    requires BusGrows(b, b') && DbGrows(d, d') && WorkerOk(specs, d, b, w)
    ensures WorkerOk(specs, d', b', w)
  {
    if w.Replayer? {
      forall i | 0 <= i < |w.entries| && w.entries[i] in b'.dlq ensures b'.dlq[w.entries[i]] == w.events[i] {
        assert w.entries[i] < b.nextEntry;
      }
    }
  }

  ghost predicate StoreStep(s: State, s': State) {
    s.specs == s'.specs && BusStep(s.bus, s'.bus) && DbGrows(s.db, s'.db)
  }

  lemma HandlingKeepsStores(s: State, me: Worker, c: ConStep)
    requires BusOk(s.bus) && WorkerOk(s.specs, s.db, s.bus, me)
    requires Working(s.bus, me) && EnabledHandling(s, me, c)
    ensures var (d, b, me') := Handle(s, me, c); BusStep(s.bus, b) && DbGrows(s.db, d) && WorkerOk(s.specs, d, b, me')
  {
    match c
    case Count =>
      RetriesKeep(s.bus, CurrentRetry(me), Attempts(s.bus, CurrentRetry(me)) + 1);
    case DeadLetter =>
      DlqKeeps(s.bus, Current(s.bus, me), 0);
    case Alert(id) =>
      XAddKeeps(s.bus, ALERTS, Event(id, ALERTS));
    case Ack =>
      AckKeeps(s.bus, KeyOf(me.spec), me.queue[0]);
    case Cleanup =>
      RetriesKeep(s.bus, CurrentRetry(me), 0);
    case _ =>
  }

  lemma StoresStep(s: State, a: Action)
    requires Shape(s) && Enabled(s, a)
    ensures StoreStep(s, Next(s, a))
  {
    match a
    case Env(e) =>
      if e.EnsureGroup? { CreateKeeps(s.bus, e.g); }
    case Pub(w, p) =>
      if p.Relay? {
        var id := s.workers[w].rows[s.workers[w].done];
        XAddKeeps(s.bus, s.db.outbox[id].topic, Event(id, s.db.outbox[id].topic));
      }
    case Con(w, c) =>
      if c.Read? {
        DeliverKeeps(s.bus, KeyOf(c.spec), c.count);
      } else if !c.Reclaim? {
        HandlingKeepsStores(s, s.workers[w], c);
      }
    case Rep(w, r) =>
      if r.Add? {
        XAddKeeps(s.bus, s.workers[w].topic, s.workers[w].events[0]);
      } else if r.Delete? {
        DlqKeeps(s.bus, s.workers[w].events[0], s.workers[w].entries[0]);
      }
  }

  /** The worker that took the step is still well formed. */
  lemma ActorStaysOk(s: State, a: Action)
    requires Shape(s) && Enabled(s, a) && StoreStep(s, Next(s, a)) && !a.Env?
    requires a.w in Next(s, a).workers
    ensures WorkerOk(s.specs, Next(s, a).db, Next(s, a).bus, Next(s, a).workers[a.w])
  {
    match a
    case Pub(w, p) =>
    case Con(w, c) =>
      if !c.Reclaim? && !c.Read? { HandlingKeepsStores(s, s.workers[w], c); }
    case Rep(w, r) =>
  }

  lemma OthersStay(s: State, a: Action, v: nat)
    requires Enabled(s, a) && v in Next(s, a).workers
    ensures (!a.Env? && a.w == v) || (v in s.workers && Next(s, a).workers[v] == s.workers[v])
  {
  }

  lemma KeepsShape(s: State, a: Action)
    requires Shape(s) && Enabled(s, a)
    ensures Shape(Next(s, a))
  {
    var s' := Next(s, a);
    StoresStep(s, a);
    forall v | v in s'.workers ensures WorkerOk(s'.specs, s'.db, s'.bus, s'.workers[v]) {
      OthersStay(s, a, v);
      if !a.Env? && a.w == v {
        ActorStaysOk(s, a);
      } else {
        WorkerStaysOk(s.specs, s.db, s.bus, s'.db, s'.bus, s.workers[v]);
      }
    }
  }

  // ---- At most one handler transaction per dedupe row ----------------------------------------

  /** Handler commits of a key equal the prunes of its row, plus one while the row is there. */
  ghost predicate Counted(d: Db) {
    forall k :: Times(d.commits, k) == Times(d.prunes, k) + if k in d.dedupe then 1 else 0
  }

  ghost predicate Locked(s: State) {
    && (forall w, k :: w in s.workers && Holds(s.bus, s.workers[w], k) ==> k !in s.db.dedupe)
    && (forall v, w, k :: v in s.workers && w in s.workers && Holds(s.bus, s.workers[v], k) && Holds(s.bus, s.workers[w], k)
          ==> v == w)
  }

  lemma CommitCounts(s: State, w: nat)
    requires Locked(s) && Counted(s.db) && w in s.workers && Working(s.bus, s.workers[w])
    ensures Counted(Committing(s, s.workers[w]))
  {
    if s.workers[w].pc.Inserted? {
      assert Holds(s.bus, s.workers[w], DedupeKey(s.bus, s.workers[w]));
    }
  }

  lemma KeepsCounted(s: State, a: Action)
    requires Locked(s) && Counted(s.db) && Enabled(s, a)
    ensures Counted(Next(s, a).db)
  {
    if a.Con? && (a.c.Commit? || a.c.CommitThenRaise?) {
      CommitCounts(s, a.w);
    }
  }

  /** Growing streams do not change the message a worker is on. */
  lemma SameMessage(b: Bus, b': Bus, w: Worker)
    requires BusGrows(b, b') && Working(b, w)
    ensures Working(b', w) && Current(b', w) == Current(b, w)
  {
    assert Stream(b, w.spec.topic) <= Stream(b', w.spec.topic);
  }

  /** Only `Begin` makes a worker a holder, and then of a free key. */
  lemma HolderWas(s: State, a: Action, v: nat, k: Key)
    requires Shape(s) && Enabled(s, a) && v in Next(s, a).workers && Holds(Next(s, a).bus, Next(s, a).workers[v], k)
    ensures v in s.workers && Working(s.bus, s.workers[v]) && DedupeKey(s.bus, s.workers[v]) == k
    ensures Holds(s.bus, s.workers[v], k) || (a.Con? && a.c.Begin? && a.w == v && k !in s.db.dedupe)
    ensures a.Con? && (a.c.Commit? || a.c.CommitThenRaise?) ==> v != a.w
  {
    StoresStep(s, a);
    OthersStay(s, a, v);
    if v in s.workers && Next(s, a).workers[v] == s.workers[v] {
      assert WorkerOk(s.specs, s.db, s.bus, s.workers[v]);
      SameMessage(s.bus, Next(s, a).bus, s.workers[v]);
    }
  }

  lemma OnlyCommitsInsert(s: State, a: Action, k: Key)
    requires Enabled(s, a) && k in Next(s, a).db.dedupe && k !in s.db.dedupe
    ensures a.Con? && (a.c.Commit? || a.c.CommitThenRaise?)
    ensures Holds(s.bus, s.workers[a.w], k)
  {
  }

  lemma KeepsLocked(s: State, a: Action)
    requires Shape(s) && Locked(s) && Enabled(s, a)
    ensures Locked(Next(s, a))
  {
    var s' := Next(s, a);
    forall v, k | v in s'.workers && Holds(s'.bus, s'.workers[v], k) ensures k !in s'.db.dedupe {
      HolderWas(s, a, v, k);
      if k in s'.db.dedupe {
        if k !in s.db.dedupe { OnlyCommitsInsert(s, a, k); }
        assert false;
      }
    }
    forall v, w, k | v in s'.workers && w in s'.workers && Holds(s'.bus, s'.workers[v], k) && Holds(s'.bus, s'.workers[w], k)
      ensures v == w
    {
      HolderWas(s, a, v, k);
      HolderWas(s, a, w, k);
    }
  }
}
