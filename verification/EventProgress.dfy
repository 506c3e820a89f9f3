/**
  No run of the event plane gets stuck: from every reachable state each committed event can still
  be handled by a consumer of every registered group, wherever crashes have left it.
 */
module EventProgress {
  import opened Events
  import opened EventSafety
  import opened EventDelivery
  import opened EventRuntime

  /** Some consumer of the group has committed its handling of the event. */
  ghost predicate Handled(s: State, g: GroupKey, id: EventId) {
    exists spec :: spec in s.specs && KeyOf(spec) == g && Times(s.db.commits, Key(spec.name, id)) > 0
  }

  /** Every process may die at once. */
  lemma {:induction false} StopAll(s: State)
    ensures Reaches(s, s.(workers := map[]))
    decreases s.workers.Keys
  {
    Here(s);
    if s.workers == map[] {
      assert s.(workers := map[]) == s;
    } else {
      var w :| w in s.workers;
      StopStep(s, s, w);
      var t := State(s.specs, s.clock, s.db, s.bus, s.workers - {w});
      assert w !in t.workers.Keys && t.workers.Keys < s.workers.Keys;
      StopAll(t);
      ReachesOn(s, t, s.(workers := map[]));
    }
  }

  /** A stopped system with the consumer registered. */
  ghost predicate Still(s: State, spec: Spec) {
    Inv(s) && s.workers == map[] && spec in s.specs
  }

  lemma FromPending(s: State, spec: Spec, i: nat, id: EventId) returns (t: State)
    requires Still(s, spec) && KeyOf(spec) in s.bus.groups && i in s.bus.groups[KeyOf(spec)].pending
    requires i < |Stream(s.bus, spec.topic)| && Stream(s.bus, spec.topic)[i].id == id
    ensures Reaches(s, t) && Handled(t, KeyOf(spec), id)
  {
    var k := Key(spec.name, id);
    Here(s);
    if k in s.db.dedupe {
      t := s;
      assert Times(s.db.commits, k) > 0;
    } else {
      var s1 := NextCon(s, 0, Reclaim(spec, [i]));
      OneMore(s, s, Con(0, Reclaim(spec, [i])), s1);
      assert s1.workers[0] == Consumer(spec, [i], Idle) && DedupeKey(s1.bus, s1.workers[0]) == k;
      var s2 := NextCon(s1, 0, Begin(s1.clock));
      OneMore(s, s1, Con(0, Begin(s1.clock)), s2);
      assert s2.workers[0] == Consumer(spec, [i], Inserted(s1.clock)) && DedupeKey(s2.bus, s2.workers[0]) == k;
      t := NextCon(s2, 0, Commit);
      OneMore(s, s2, Con(0, Commit), t);
      assert Times(t.db.commits, k) > 0;
    }
  }

  lemma FromStream(s: State, spec: Spec, i: nat, id: EventId) returns (t: State)
    requires Still(s, spec) && GroupOf(s.bus, KeyOf(spec)).cursor <= i < |Stream(s.bus, spec.topic)|
    requires Stream(s.bus, spec.topic)[i].id == id
    ensures Reaches(s, t) && Handled(t, KeyOf(spec), id)
  {
    var g := KeyOf(spec);
    Here(s);
    var s1 := NextEnv(s, EnsureGroup(g));
    OneMore(s, s, Env(EnsureGroup(g)), s1);
    var from := GroupOf(s1.bus, g).cursor;
    var s2 := NextCon(s1, 0, Read(spec, i + 1 - from));
    OneMore(s, s1, Con(0, Read(spec, i + 1 - from)), s2);
    assert Range(from, i + 1 - from)[i - from] == i;
    var s3 := NextEnv(s2, Stop(0));
    OneMore(s, s2, Env(Stop(0)), s3);
    ReachesKeeps(s, s3);
    assert s3.workers == map[];
    t := FromPending(s3, spec, i, id);
    ReachesOn(s, s3, t);
  }

  lemma FromOutbox(s: State, spec: Spec, id: EventId) returns (t: State)
    requires Still(s, spec) && id in s.db.outbox && !s.db.outbox[id].published && s.db.outbox[id].topic == spec.topic
    ensures Reaches(s, t) && Handled(t, KeyOf(spec), id)
  {
    Here(s);
    var s1 := NextPub(s, 0, Claim([id]));
    OneMore(s, s, Pub(0, Claim([id])), s1);
    var s2 := NextPub(s1, 0, Relay);
    OneMore(s, s1, Pub(0, Relay), s2);
    var s3 := NextEnv(s2, Stop(0));
    OneMore(s, s2, Env(Stop(0)), s3);
    ReachesKeeps(s, s3);
    assert s3.workers == map[];
    BehindCursor(s, KeyOf(spec));
    t := FromStream(s3, spec, |Stream(s.bus, spec.topic)|, id);
    ReachesOn(s, s3, t);
  }

  lemma BehindCursor(s: State, g: GroupKey)
    requires Inv(s)
    ensures GroupOf(s.bus, g).cursor <= |Stream(s.bus, g.topic)|
  {}

  lemma FromDlq(s: State, spec: Spec, d: nat, id: EventId) returns (t: State)
    requires Still(s, spec) && d in s.bus.dlq && s.bus.dlq[d] == Event(id, spec.topic)
    ensures Reaches(s, t) && Handled(t, KeyOf(spec), id)
  {
    Here(s);
    var s1 := NextRep(s, 0, Fetch(spec.topic, [d]));
    OneMore(s, s, Rep(0, Fetch(spec.topic, [d])), s1);
    var s2 := NextRep(s1, 0, Add);
    OneMore(s, s1, Rep(0, Add), s2);
    var s3 := NextEnv(s2, Stop(0));
    OneMore(s, s2, Env(Stop(0)), s3);
    ReachesKeeps(s, s3);
    assert s3.workers == map[];
    BehindCursor(s, KeyOf(spec));
    t := FromStream(s3, spec, |Stream(s.bus, spec.topic)|, id);
    ReachesOn(s, s3, t);
  }

  lemma FromSource(s: State, spec: Spec, id: EventId, src: Source) returns (t: State)
    requires Still(s, spec) && Live(s, KeyOf(spec), id, src) && id in s.db.outbox && s.db.outbox[id].topic == spec.topic
    ensures Reaches(s, t) && Handled(t, KeyOf(spec), id)
  {
    match src
    case InOutbox => t := FromOutbox(s, spec, id);
    case InStream(i) => t := FromStream(s, spec, i, id);
    case InPending(i) => t := FromPending(s, spec, i, id);
    case InDedupe(_) =>
      Here(s);
      t := s;
    case InDlq(d) => t := FromDlq(s, spec, d, id);
  }

  /**
    From every reachable state there is a continuation in which the event has been handled for the
    group: no crash, retry, dead-lettering or replay can put it out of reach.
   */
  lemma EveryEventCanStillBeHandled(s0: State, run: seq<Action>, spec: Spec, id: EventId)
    requires Init(s0) && ValidRun(s0, run)
    requires var s := Exec(s0, run); spec in s.specs && id in s.db.outbox && s.db.outbox[id].topic == spec.topic
    ensures exists t :: Reaches(Exec(s0, run), t) && Handled(t, KeyOf(spec), id)
  {
    var s := Exec(s0, run);
    InitInv(s0);
    RunKeeps(s0, run);
    StopAll(s);
    var still := s.(workers := map[]);
    ReachesKeeps(s, still);
    var src :| Live(still, KeyOf(spec), id, src);
    var t := FromSource(still, spec, id, src);
    ReachesOn(s, still, t);
  }
}
