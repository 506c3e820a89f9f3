/**
  The event plane as a transition system: a transactional outbox relayed to Redis streams,
  consumer groups with a pending list, a dedupe table, bounded retries, a dead-letter queue
  and its replay.  Every action below is one atomic effect on Postgres or Redis, so a run may
  interleave any number of publishers, consumers and replayers and may lose any of them
  (`Stop`) between any two effects.
 */
module Events {

  type EventId = nat
  type Topic = string
  datatype Event = Event(id: EventId, topic: Topic)

  /** A registered consumer: its stream is the one of `topic`; `name` scopes its dedupe rows. */
  datatype Spec = Spec(topic: Topic, group: string, name: string)
  datatype GroupKey = GroupKey(topic: Topic, group: string)
  datatype Key = Key(consumer: string, event: EventId)
  datatype Group = Group(cursor: nat, pending: set<nat>)
  datatype Row = Row(topic: Topic, published: bool)
  datatype RetryKey = RetryKey(group: GroupKey, msg: nat)

  /** Committed Postgres rows; `commits` and `prunes` count, per key, what happened so far. */
  datatype Db = Db(
    outbox: map<EventId, Row>,
    dedupe: map<Key, int>,
    commits: map<Key, nat>,
    prunes: map<Key, nat>)

  /** Redis.  Dead-letter entry ids are never reused. */
  datatype Bus = Bus(
    streams: map<Topic, seq<Event>>,
    groups: map<GroupKey, Group>,
    dlq: map<nat, Event>,
    nextEntry: nat,
    retries: map<RetryKey, nat>)

  /** Where a consumer stands with the first message of its queue. */
  datatype Pc =
    | Idle
    | Inserted(created: int)    // uncommitted dedupe row held, handler running
    | Skipped                   // the insert found a row: handler not run
    | Committed
    | Failed                    // raised and rolled back
    | Poisoned                  // counted past the retry limit
    | DeadLettered
    | Alerted
    | Acked

  datatype Worker =
    | Consumer(spec: Spec, queue: seq<nat>, pc: Pc)
    | Publisher(rows: seq<EventId>, done: nat)
    | Replayer(topic: Topic, entries: seq<nat>, events: seq<Event>, added: bool)

  datatype State = State(specs: set<Spec>, clock: int, db: Db, bus: Bus, workers: map<nat, Worker>)

  datatype EnvStep =
    | Tick(now: int)
    | Emit(id: EventId, topic: Topic)
    | EnsureGroup(g: GroupKey)
    | Prune(cutoff: int)
    | Stop(victim: nat)

  datatype PubStep = Claim(rows: seq<EventId>) | Relay | Mark

  datatype ConStep =
    | Reclaim(spec: Spec, msgs: seq<nat>)
    | Read(spec: Spec, count: nat)
    | Begin(created: int)
    | Commit
    | CommitThenRaise
    | Raise
    | Count
    | DeadLetter
    | Alert(id: EventId)
    | Ack
    | Cleanup

  datatype RepStep = Fetch(topic: Topic, entries: seq<nat>) | Add | Delete

  datatype Action =
    | Env(e: EnvStep)
    | Pub(w: nat, p: PubStep)
    | Con(w: nat, c: ConStep)
    | Rep(w: nat, r: RepStep)

  const DLQ_AFTER: nat := 5
  const ALERTS: Topic := "alert.ops.v1"
  const RETENTION: int := 30 * 24 * 3600

  // ---- Reading the state ---------------------------------------------------------------------

  function Stream(b: Bus, t: Topic): seq<Event> {
    if t in b.streams then b.streams[t] else []
  }

  /** A group that does not exist yet will be created at position 0, so it reads everything. */
  function GroupOf(b: Bus, g: GroupKey): Group {
    if g in b.groups then b.groups[g] else Group(0, {})
  }

  function Times(m: map<Key, nat>, k: Key): nat {
    if k in m then m[k] else 0
  }

  function Attempts(b: Bus, k: RetryKey): nat {
    if k in b.retries then b.retries[k] else 0
  }

  function KeyOf(spec: Spec): GroupKey {
    GroupKey(spec.topic, spec.group)
  }

  /** The message a consumer is working on refers to an entry of its stream. */
  predicate Working(b: Bus, w: Worker) {
    w.Consumer? && |w.queue| > 0 && w.queue[0] < |Stream(b, w.spec.topic)|
  }

  function Current(b: Bus, w: Worker): Event
    requires Working(b, w)
  {
    Stream(b, w.spec.topic)[w.queue[0]]
  }

  function DedupeKey(b: Bus, w: Worker): Key
    requires Working(b, w)
  {
    Key(w.spec.name, Current(b, w).id)
  }

  /** `w` holds the uncommitted dedupe row of `k`, so any other insert of `k` waits. */
  predicate Holds(b: Bus, w: Worker, k: Key) {
    Working(b, w) && w.pc.Inserted? && DedupeKey(b, w) == k
  }

  predicate InTransaction(w: Worker) {
    w.Consumer? && (w.pc.Inserted? || w.pc.Skipped?)
  }

  // ---- Effects on the two stores -------------------------------------------------------------

  function XAdd(b: Bus, t: Topic, e: Event): Bus {
    b.(streams := b.streams[t := Stream(b, t) + [e]])
  }

  function CreateGroup(b: Bus, g: GroupKey): Bus {
    if g in b.groups then b else b.(groups := b.groups[g := Group(0, {})])
  }

  function Range(from: nat, count: nat): seq<nat> {
    seq(count, i requires 0 <= i < count => from + i)
  }

  function Deliver(b: Bus, g: GroupKey, count: nat): Bus {
    var was := GroupOf(b, g);
    b.(groups := b.groups[g := Group(was.cursor + count, was.pending + set m | m in Range(was.cursor, count))])
  }

  function XAck(b: Bus, g: GroupKey, m: nat): Bus
    requires g in b.groups
  {
    b.(groups := b.groups[g := b.groups[g].(pending := b.groups[g].pending - {m})])
  }

  function DlqAdd(b: Bus, e: Event): Bus {
    b.(dlq := b.dlq[b.nextEntry := e], nextEntry := b.nextEntry + 1)
  }

  function DlqDelete(b: Bus, d: nat): Bus {
    b.(dlq := b.dlq - {d})
  }

  function SetRetries(b: Bus, k: RetryKey, n: nat): Bus {
    b.(retries := b.retries[k := n])
  }

  function ForgetRetries(b: Bus, k: RetryKey): Bus {
    b.(retries := b.retries - {k})
  }

  function MarkRows(d: Db, rows: seq<EventId>): Db {
    d.(outbox := map id | id in d.outbox :: if id in rows then d.outbox[id].(published := true) else d.outbox[id])
  }

  /** The dedupe row becomes durable; the handler ran inside this transaction. */
  function CommitRow(d: Db, k: Key, created: int): Db {
    d.(dedupe := d.dedupe[k := created], commits := d.commits[k := Times(d.commits, k) + 1])
  }

  function Stale(d: Db, cutoff: int): set<Key> {
    set k | k in d.dedupe && d.dedupe[k] < cutoff
  }

  function PruneRows(d: Db, cutoff: int): Db {
    d.(dedupe := d.dedupe - Stale(d, cutoff),
       prunes := map k | k in d.prunes.Keys + Stale(d, cutoff) ::
                   Times(d.prunes, k) + if k in Stale(d, cutoff) then 1 else 0)
  }

  function ReadEntries(b: Bus, entries: seq<nat>): seq<Event>
    requires forall i :: 0 <= i < |entries| ==> entries[i] in b.dlq
  {
    seq(|entries|, i requires 0 <= i < |entries| => b.dlq[entries[i]])
  }

  function Pop(w: Worker): Worker
    requires w.Consumer? && |w.queue| > 0
  {
    Consumer(w.spec, w.queue[1..], Idle)
  }

  function CurrentRetry(w: Worker): RetryKey
    requires w.Consumer? && |w.queue| > 0
  {
    RetryKey(KeyOf(w.spec), w.queue[0])
  }

  function Put(s: State, w: nat, worker: Worker): State {
    s.(workers := s.workers[w := worker])
  }

  // ---- The transition relation ---------------------------------------------------------------

  ghost predicate EnabledEnv(s: State, e: EnvStep) {
    match e
    case Tick(now) => s.clock <= now
    case Emit(id, topic) => id !in s.db.outbox
    case EnsureGroup(g) => true
    case Prune(cutoff) => true
    case Stop(v) => true
  }

  ghost function NextEnv(s: State, e: EnvStep): State {
    match e
    case Tick(now) => s.(clock := now)
    case Emit(id, topic) => s.(db := s.db.(outbox := s.db.outbox[id := Row(topic, false)]))
    case EnsureGroup(g) => s.(bus := CreateGroup(s.bus, g))
    case Prune(cutoff) => s.(db := PruneRows(s.db, cutoff))
    case Stop(v) => s.(workers := s.workers - {v})
  }

  ghost predicate EnabledPub(s: State, w: nat, p: PubStep) {
    match p
    case Claim(rows) =>
      w !in s.workers && (forall i :: 0 <= i < |rows| ==> rows[i] in s.db.outbox && !s.db.outbox[rows[i]].published)
    case Relay =>
      w in s.workers && s.workers[w].Publisher? && s.workers[w].done < |s.workers[w].rows|
      && s.workers[w].rows[s.workers[w].done] in s.db.outbox
    case Mark =>
      w in s.workers && s.workers[w].Publisher? && s.workers[w].done == |s.workers[w].rows|
  }

  ghost function NextPub(s: State, w: nat, p: PubStep): State
    requires EnabledPub(s, w, p)
  {
    match p
    case Claim(rows) => Put(s, w, Publisher(rows, 0))
    case Relay =>
      var me := s.workers[w];
      var id := me.rows[me.done];
      Put(s, w, me.(done := me.done + 1))
        .(bus := XAdd(s.bus, s.db.outbox[id].topic, Event(id, s.db.outbox[id].topic)))
    case Mark => s.(db := MarkRows(s.db, s.workers[w].rows), workers := s.workers - {w})
  }

  ghost predicate EnabledCon(s: State, w: nat, c: ConStep) {
    match c
    case Reclaim(spec, msgs) =>
      && w !in s.workers && spec in s.specs && KeyOf(spec) in s.bus.groups
      && (forall i :: 0 <= i < |msgs| ==> msgs[i] in s.bus.groups[KeyOf(spec)].pending)
    case Read(spec, count) =>
      && w !in s.workers && spec in s.specs && KeyOf(spec) in s.bus.groups
      && s.bus.groups[KeyOf(spec)].cursor + count <= |Stream(s.bus, spec.topic)|
    case _ =>
      w in s.workers && Working(s.bus, s.workers[w]) && EnabledHandling(s, s.workers[w], c)
  }

  /** The order in which one message is handled. */
  ghost predicate EnabledHandling(s: State, me: Worker, c: ConStep)
    requires Working(s.bus, me)
  {
    match c
    case Begin(created) =>
      && me.pc == Idle && created <= s.clock
      && (forall v :: v in s.workers ==> !Holds(s.bus, s.workers[v], DedupeKey(s.bus, me)))
    case Commit => InTransaction(me)
    case CommitThenRaise => InTransaction(me)
    case Raise => InTransaction(me)
    case Count => me.pc == Failed
    case DeadLetter => me.pc == Poisoned
    case Alert(id) => me.pc == DeadLettered
    case Ack => (me.pc == Committed || me.pc == Alerted) && KeyOf(me.spec) in s.bus.groups
    case Cleanup => me.pc == Acked
    case _ => false
  }

  function Committing(s: State, me: Worker): Db
    requires Working(s.bus, me)
  {
    if me.pc.Inserted? then CommitRow(s.db, DedupeKey(s.bus, me), me.pc.created) else s.db
  }

  /** What one handling step does to the database, to Redis and to the worker itself. */
  ghost function Handle(s: State, me: Worker, c: ConStep): (Db, Bus, Worker)
    requires Working(s.bus, me) && EnabledHandling(s, me, c)
  {
    match c
    case Begin(created) =>
      (s.db, s.bus, me.(pc := if DedupeKey(s.bus, me) in s.db.dedupe then Skipped else Inserted(created)))
    case Commit => (Committing(s, me), s.bus, me.(pc := Committed))
    case CommitThenRaise => (Committing(s, me), s.bus, me.(pc := Failed))
    case Raise => (s.db, s.bus, me.(pc := Failed))
    case Count =>
      var n := Attempts(s.bus, CurrentRetry(me)) + 1;
      (s.db, SetRetries(s.bus, CurrentRetry(me), n), if n > DLQ_AFTER then me.(pc := Poisoned) else Pop(me))
    case DeadLetter => (s.db, DlqAdd(s.bus, Current(s.bus, me)), me.(pc := DeadLettered))
    case Alert(id) => (s.db, XAdd(s.bus, ALERTS, Event(id, ALERTS)), me.(pc := Alerted))
    case Ack => (s.db, XAck(s.bus, KeyOf(me.spec), me.queue[0]), me.(pc := Acked))
    case Cleanup => (s.db, ForgetRetries(s.bus, CurrentRetry(me)), Pop(me))
  }

  ghost function NextCon(s: State, w: nat, c: ConStep): State
    requires EnabledCon(s, w, c)
  {
    match c
    case Reclaim(spec, msgs) => Put(s, w, Consumer(spec, msgs, Idle))
    case Read(spec, count) =>
      Put(s, w, Consumer(spec, Range(GroupOf(s.bus, KeyOf(spec)).cursor, count), Idle))
        .(bus := Deliver(s.bus, KeyOf(spec), count))
    case _ =>
      var (db, bus, me) := Handle(s, s.workers[w], c);
      State(s.specs, s.clock, db, bus, s.workers[w := me])
  }

  ghost predicate EnabledRep(s: State, w: nat, r: RepStep) {
    match r
    case Fetch(topic, entries) =>
      && w !in s.workers
      && (forall i :: 0 <= i < |entries| ==> entries[i] in s.bus.dlq && s.bus.dlq[entries[i]].topic == topic)
    case Add =>
      w in s.workers && s.workers[w].Replayer? && !s.workers[w].added
      && |s.workers[w].entries| == |s.workers[w].events| > 0
    case Delete =>
      w in s.workers && s.workers[w].Replayer? && s.workers[w].added
      && |s.workers[w].entries| == |s.workers[w].events| > 0
  }

  ghost function NextRep(s: State, w: nat, r: RepStep): State
    requires EnabledRep(s, w, r)
  {
    match r
    case Fetch(topic, entries) => Put(s, w, Replayer(topic, entries, ReadEntries(s.bus, entries), false))
    case Add =>
      var me := s.workers[w];
      Put(s, w, me.(added := true)).(bus := XAdd(s.bus, me.topic, me.events[0]))
    case Delete =>
      var me := s.workers[w];
      Put(s, w, Replayer(me.topic, me.entries[1..], me.events[1..], false)).(bus := DlqDelete(s.bus, me.entries[0]))
  }

  ghost predicate Enabled(s: State, a: Action) {
    match a
    case Env(e) => EnabledEnv(s, e)
    case Pub(w, p) => EnabledPub(s, w, p)
    case Con(w, c) => EnabledCon(s, w, c)
    case Rep(w, r) => EnabledRep(s, w, r)
  }

  ghost function Next(s: State, a: Action): State
    requires Enabled(s, a)
  {
    match a
    case Env(e) => NextEnv(s, e)
    case Pub(w, p) => NextPub(s, w, p)
    case Con(w, c) => NextCon(s, w, c)
    case Rep(w, r) => NextRep(s, w, r)
  }

  ghost predicate ValidRun(s: State, run: seq<Action>)
    decreases |run|
  {
    run == [] || (Enabled(s, run[0]) && ValidRun(Next(s, run[0]), run[1..]))
  }

  ghost function Exec(s: State, run: seq<Action>): State
    requires ValidRun(s, run)
    decreases |run|
  {
    if run == [] then s else Exec(Next(s, run[0]), run[1..])
  }

  predicate Init(s: State) {
    && s.db == Db(map[], map[], map[], map[])
    && s.bus == Bus(map[], map[], map[], 0, map[])
    && s.workers == map[]
  }
}
