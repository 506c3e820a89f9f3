/**
  What a verified chain and an external anchor pin down.
 */
module Anchor {
  import opened Wrappers
  import opened Json
  import opened JsonUnique
  import opened Audit

  predicate IsHex(c: char) {
    '0' <= c <= '9' || 'a' <= c <= 'f'
  }

  /** The digest is printed in lower-case hex. */
  ghost predicate HexOutput(h: Hash) {
    forall m, i :: 0 <= i < |h(m)| ==> IsHex(h(m)[i])
  }

  ghost predicate HexText(s: string) {
    forall i :: 0 <= i < |s| ==> IsHex(s[i])
  }

  function Hashes(r: Record): string {
    Hashed(r.prevHash, r.number, r.entry)
  }

  /** Two different texts with one digest, at the same place of the two chains. */
  ghost predicate CollisionAt(h: Hash, a: Record, b: Record) {
    Hashes(a) != Hashes(b) && h(Hashes(a)) == h(Hashes(b))
  }

  ghost predicate Collision(h: Hash, a: seq<Record>, b: seq<Record>) {
    exists i :: 0 <= i < |a| && i < |b| && CollisionAt(h, a[i], b[i])
  }

  // ---- The hashed text determines the record -------------------------------------------------

  lemma CharAt(p: string, x: string, k: nat)
    requires k < |p| + |x|
    ensures (p + x)[k] == if k < |p| then p[k] else x[k - |p|]
  {
  }

  lemma HexPrefixEnds(p: string, x: string, q: string, y: string)
    requires HexText(p) && HexText(q) && x != "" && y != "" && x[0] == '{' && y[0] == '{' && p + x == q + y
    ensures |p| >= |q|
  {
    assert |p + x| == |q + y|;
    CharAt(p, x, |p|);
    CharAt(q, y, |p|);
  }

  /** The concatenation of a digest (or nothing) and a printed object splits in one way. */
  lemma SplitsUniquely(p: string, q: string, m: int, a: Entry, n: int, b: Entry)
    requires HexText(p) && HexText(q)
    ensures Hashed(p, m, a) == Hashed(q, n, b) <==> p == q && m == n && a == b
  {
    if Hashed(p, m, a) == Hashed(q, n, b) {
      var x, y := Print(Body(m, a)), Print(Body(n, b));
      HexPrefixEnds(p, x, q, y);
      HexPrefixEnds(q, y, p, x);
      CutEqual(p, x, q, y);
      CanonicalInjective(Body(m, a), Body(n, b));
      BodyDetermines(m, a, n, b);
    }
  }

  lemma BodyDetermines(m: int, a: Entry, n: int, b: Entry)
    requires Body(m, a) == Body(n, b)
    ensures m == n && a == b
  {
    var u, v := Body(m, a).members, Body(n, b).members;
    assert u["seq"] == Int(m) && v["seq"] == Int(n);
    assert u["actor_type"] == Str(a.actorType) && v["actor_type"] == Str(b.actorType);
    assert u["actor_id"] == OrNull(a.actorId) && v["actor_id"] == OrNull(b.actorId);
    assert u["action"] == Str(a.action) && v["action"] == Str(b.action);
    assert u["resource"] == OrNull(a.resource) && v["resource"] == OrNull(b.resource);
    assert u["payload"] == Obj(a.payload) && v["payload"] == Obj(b.payload);
    assert u["permission_manifest_hash"] == OrNull(a.manifestHash) && v["permission_manifest_hash"] == OrNull(b.manifestHash);
  }

  lemma LinksAreHex(h: Hash, rs: seq<Record>, i: nat)
    requires HexOutput(h) && Chain(h, rs) && i < |rs|
    ensures HexText(rs[i].prevHash) && rs[i].number == i + 1
  {
    assert GoodAt(h, rs, i);
    if i > 0 { assert GoodAt(h, rs, i - 1); }
  }

  /** One record up: equal hashes give equal records, or a collision. */
  lemma RecordPinned(h: Hash, a: seq<Record>, b: seq<Record>, i: nat)
    requires HexOutput(h) && Chain(h, a) && Chain(h, b) && i < |a| && i < |b|
    requires a[i].entryHash == b[i].entryHash
    ensures a[i] == b[i] || CollisionAt(h, a[i], b[i])
  {
    assert GoodAt(h, a, i) && GoodAt(h, b, i);
    LinksAreHex(h, a, i);
    LinksAreHex(h, b, i);
    SplitsUniquely(a[i].prevHash, b[i].prevHash, a[i].number, a[i].entry, b[i].number, b[i].entry);
  }

  /**
    Two chains that verify from genesis and agree on the hash of record `n` agree on every hashed
    field of every record up to it, or exhibit a collision.
   */
  lemma {:induction false} HeadPinsPrefix(h: Hash, a: seq<Record>, b: seq<Record>, n: nat)
    requires HexOutput(h) && Chain(h, a) && Chain(h, b) && n <= |a| && n <= |b|
    requires n > 0 ==> a[n - 1].entryHash == b[n - 1].entryHash
    ensures a[..n] == b[..n] || Collision(h, a, b)
  {
    if n > 0 {
      var i := n - 1;
      RecordPinned(h, a, b, i);
      if a[i] == b[i] {
        if i > 0 { assert GoodAt(h, a, i) && GoodAt(h, b, i); }
        HeadPinsPrefix(h, a, b, i);
        assert a[..n] == a[..i] + [a[i]] && b[..n] == b[..i] + [b[i]];
      }
    }
  }

  // ---- Anchors -------------------------------------------------------------------------------

  datatype Head = Head(org: Org, number: int, entryHash: string)
  datatype Discrepancy = Discrepancy(org: Org, number: int, anchored: string, current: Option<string>)

  /** The hash stored under one sequence number (the pair is unique in the table). */
  function Lookup(rs: seq<Record>, number: int): (r: Option<string>)
    ensures r.Some? ==> exists i :: 0 <= i < |rs| && rs[i].number == number && r.value == rs[i].entryHash
    ensures r.None? ==> forall i :: 0 <= i < |rs| ==> rs[i].number != number
  {
    if rs == [] then None
    else if rs[0].number == number then Some(rs[0].entryHash)
    else
      Lookup(rs[1..], number)
  }

  /** `chain_heads`: the last record of every organisation that has one. */
  method ChainHeads(logs: map<Org, seq<Row>>, orgs: seq<Org>) returns (heads: seq<Head>)
    ensures forall org :: org in orgs && LogOf(logs, org) != [] ==>
              HeadOf(org, LogOf(logs, org)) in heads
    ensures forall head :: head in heads ==> IsHead(logs, orgs, head)
  {
    heads := [];
    for i := 0 to |orgs|
      invariant forall j :: 0 <= j < i && LogOf(logs, orgs[j]) != [] ==> HeadOf(orgs[j], LogOf(logs, orgs[j])) in heads
      invariant forall head :: head in heads ==> IsHead(logs, orgs, head)
    {
      var rows := LogOf(logs, orgs[i]);
      if rows != [] {
        heads := heads + [HeadOf(orgs[i], rows)];
      }
    }
  }

  function HeadOf(org: Org, rows: seq<Row>): Head
    requires rows != []
  {
    var last := rows[|rows| - 1].rec;
    Head(org, last.number, last.entryHash)
  }

  ghost predicate IsHead(logs: map<Org, seq<Row>>, orgs: seq<Org>, head: Head) {
    head.org in orgs && LogOf(logs, head.org) != [] && head == HeadOf(head.org, LogOf(logs, head.org))
  }

  /** An anchored head whose stored hash is now another one, or gone. */
  ghost predicate IsDiscrepancy(logs: map<Org, seq<Row>>, heads: seq<Head>, p: Discrepancy) {
    && Head(p.org, p.number, p.anchored) in heads
    && p.current == Lookup(Records(LogOf(logs, p.org)), p.number)
    && p.current != Some(p.anchored)
  }

  ghost predicate Holds(logs: map<Org, seq<Row>>, head: Head) {
    Lookup(Records(LogOf(logs, head.org)), head.number) == Some(head.entryHash)
  }

  /** `verify_against_anchor`: no discrepancy exactly when every anchored head is still there. */
  method VerifyAgainstAnchor(logs: map<Org, seq<Row>>, heads: seq<Head>) returns (problems: seq<Discrepancy>)
    ensures problems == [] <==> forall i :: 0 <= i < |heads| ==> Holds(logs, heads[i])
    ensures forall p :: p in problems ==> IsDiscrepancy(logs, heads, p)
  {
    problems := [];
    for i := 0 to |heads|
      invariant problems == [] <==> forall j :: 0 <= j < i ==> Holds(logs, heads[j])
      invariant forall p :: p in problems ==> IsDiscrepancy(logs, heads, p)
    {
      var head := heads[i];
      var current := Lookup(Records(LogOf(logs, head.org)), head.number);
      if current != Some(head.entryHash) {
        problems := problems + [Discrepancy(head.org, head.number, head.entryHash, current)];
        assert !Holds(logs, heads[i]);
      }
    }
  }

  /**
    A matching anchor pins the whole prefix: whatever was done to the database since, if the live
    chain verifies and the anchored head matches, the first records are the anchored ones.
   */
  lemma AnchorPinsPrefix(h: Hash, then_: seq<Row>, live: seq<Row>, org: Org)
    requires HexOutput(h) && Chain(h, Records(then_)) && Chain(h, Records(live)) && then_ != []
    requires Holds(map[org := live], HeadOf(org, then_))
    ensures Collision(h, Records(then_), Records(live))
            || (|live| >= |then_| && Records(live)[..|then_|] == Records(then_))
  {
    var a, b := Records(then_), Records(live);
    var n := |a|;
    LinksAreHex(h, a, n - 1);
    assert LogOf(map[org := live], org) == live;
    var i :| 0 <= i < |b| && b[i].number == n && a[n - 1].entryHash == b[i].entryHash;
    LinksAreHex(h, b, i);
    HeadPinsPrefix(h, a, b, n);
    assert a[..n] == a;
  }

  /** A log that only grew always matches its own anchor. */
  lemma GrowthKeepsAnchor(h: Hash, rows: seq<Row>, more: seq<Row>, org: Org)
    requires HexOutput(h) && rows != [] && Chain(h, Records(rows + more))
    ensures Holds(map[org := rows + more], HeadOf(org, rows))
  {
    var rs := Records(rows + more);
    assert LogOf(map[org := rows + more], org) == rows + more;
    LookupFinds(h, rs, |rows| - 1);
    LinksAreHex(h, rs, |rows| - 1);
  }

  lemma LookupFinds(h: Hash, rs: seq<Record>, i: nat)
    requires HexOutput(h) && Chain(h, rs) && i < |rs|
    ensures Lookup(rs, rs[i].number) == Some(rs[i].entryHash)
  {
    LinksAreHex(h, rs, i);
    if Lookup(rs, rs[i].number).Some? {
      var j :| 0 <= j < |rs| && rs[j].number == rs[i].number && Lookup(rs, rs[i].number).value == rs[j].entryHash;
      LinksAreHex(h, rs, j);
    }
  }

  // ---- Whole runs ----------------------------------------------------------------------------

  datatype Op =
    | Write(org: Org, e: Entry, id: Id, now: int)
    | WriteOutcome(org: Org, intent: Id, intentText: string, outcome: string, detail: Option<string>, id: Id, now: int)

  function Append(h: Hash, logs: map<Org, seq<Row>>, org: Org, e: Entry, id: Id, now: int): map<Org, seq<Row>> {
    logs[org := LogOf(logs, org) + [Row(id, org, NextRecord(h, LogOf(logs, org), e), now)]]
  }

  function Apply(h: Hash, logs: map<Org, seq<Row>>, op: Op): map<Org, seq<Row>> {
    match op
    case Write(org, e, id, now) => Append(h, logs, org, e, id, now)
    case WriteOutcome(org, intent, intentText, outcome, detail, id, now) =>
      match Find(LogOf(logs, org), intent)
      case None => logs
      case Some(row) => Append(h, logs, org, Outcome(row.rec.entry, intentText, outcome, detail), id, now)
  }

  function Run(h: Hash, logs: map<Org, seq<Row>>, ops: seq<Op>): map<Org, seq<Row>>
    decreases |ops|
  {
    if ops == [] then logs else Run(h, Apply(h, logs, ops[0]), ops[1..])
  }

  ghost predicate AllChains(h: Hash, logs: map<Org, seq<Row>>) {
    forall org :: org in logs ==> Chain(h, Records(logs[org]))
  }

  lemma ApplyKeepsChains(h: Hash, logs: map<Org, seq<Row>>, op: Op)
    requires AllChains(h, logs)
    ensures AllChains(h, Apply(h, logs, op))
    ensures forall org :: LogOf(logs, org) <= LogOf(Apply(h, logs, op), org)
  {
    forall org | org in Apply(h, logs, op) ensures Chain(h, Records(Apply(h, logs, op)[org])) {
      var after := Apply(h, logs, op)[org];
      if after != LogOf(logs, org) {
        AppendKeepsChain(h, LogOf(logs, org), after[|after| - 1]);
      }
    }
  }

  /** Any run over any organisations leaves every chain intact, numbered 1..n and only grown. */
  lemma {:induction false} RunKeepsChains(h: Hash, logs: map<Org, seq<Row>>, ops: seq<Op>, org: Org)
    requires AllChains(h, logs)
    ensures AllChains(h, Run(h, logs, ops))
    ensures LogOf(logs, org) <= LogOf(Run(h, logs, ops), org)
    decreases |ops|
  {
    if ops != [] {
      ApplyKeepsChains(h, logs, ops[0]);
      RunKeepsChains(h, Apply(h, logs, ops[0]), ops[1..], org);
    }
  }

  lemma EveryRunVerifies(h: Hash, ops: seq<Op>, org: Org)
    ensures var rs := Records(LogOf(Run(h, map[], ops), org));
            Segment(h, rs) && forall i :: 0 <= i < |rs| ==> rs[i].number == i + 1
  {
    RunKeepsChains(h, map[], ops, org);
    var rs := Records(LogOf(Run(h, map[], ops), org));
    forall i | 0 <= i < |rs| ensures rs[i].number == i + 1 {
      assert GoodAt(h, rs, i);
    }
  }

  /** A capability is good for exactly its own action and resource, for ten minutes, whatever is written after it. */
  lemma CapabilityLives(
    h: Hash, logs: map<Org, seq<Row>>, org: Org, e: Entry, id: Id, t: int, ops: seq<Op>,
    action: string, resource: Option<string>, now: int)
    requires AllChains(h, logs) && Find(LogOf(logs, org), id).None?
    ensures VerifyCapability(LogOf(Run(h, Append(h, logs, org, e, id, t), ops), org), id, action, resource, now)
            <==> action == e.action && resource == e.resource && now < t + 10 * 60
  {
    var after := Append(h, logs, org, e, id, t);
    ApplyKeepsChains(h, logs, Write(org, e, id, t));
    RunKeepsChains(h, after, ops, org);
    FindIn(LogOf(Run(h, after, ops), org), LogOf(logs, org), after[org][|LogOf(logs, org)|]);
  }

  /** Operation `k` of the run wrote the id at time `t`, for this action and resource: itself, or as the outcome of an earlier intent. */
  ghost predicate Wrote(ops: seq<Op>, k: nat, org: Org, id: Id, action: string, resource: Option<string>, t: int) {
    k < |ops| && ops[k].org == org && ops[k].id == id && ops[k].now == t &&
    match ops[k]
    case Write(_, e, _, _) => action == e.action && resource == e.resource
    case WriteOutcome(_, intent, _, outcome, _, _, _) =>
      exists j: nat, was, before :: j < k && Wrote(ops, j, org, intent, was, resource, before) && action == was + ":" + outcome
  }

  lemma {:induction false} RunSnoc(h: Hash, logs: map<Org, seq<Row>>, ops: seq<Op>, op: Op)
    ensures Run(h, logs, ops + [op]) == Apply(h, Run(h, logs, ops), op)
    decreases |ops|
  {
    if ops == [] {
      assert ([op])[1..] == [] && ops + [op] == [op];
    } else {
      assert (ops + [op])[0] == ops[0] && (ops + [op])[1..] == ops[1..] + [op];
      RunSnoc(h, Apply(h, logs, ops[0]), ops[1..], op);
    }
  }

  ghost predicate WroteRow(ops: seq<Op>, k: nat, org: Org, row: Row) {
    Wrote(ops, k, org, row.id, row.rec.entry.action, row.rec.entry.resource, row.created)
  }

  ghost predicate AllWritten(ops: seq<Op>, n: nat, org: Org, rows: seq<Row>) {
    forall row :: row in rows ==> exists k: nat :: k < n && WroteRow(ops, k, org, row)
  }

  lemma ApplyWrites(h: Hash, logs: map<Org, seq<Row>>, ops: seq<Op>, n: nat, org: Org)
    requires n < |ops| && AllWritten(ops, n, org, LogOf(logs, org))
    ensures AllWritten(ops, n + 1, org, LogOf(Apply(h, logs, ops[n]), org))
  {
    var after := LogOf(Apply(h, logs, ops[n]), org);
    forall row | row in after ensures exists k: nat :: k < n + 1 && WroteRow(ops, k, org, row) {
      if row in LogOf(logs, org) {
        var k: nat :| k < n && WroteRow(ops, k, org, row);
      } else {
        assert row == after[|after| - 1];
        AppendedIsWritten(h, logs, ops, n, org);
      }
    }
  }

  lemma AppendedIsWritten(h: Hash, logs: map<Org, seq<Row>>, ops: seq<Op>, n: nat, org: Org)
    requires n < |ops| && AllWritten(ops, n, org, LogOf(logs, org))
    requires LogOf(Apply(h, logs, ops[n]), org) != LogOf(logs, org)
    ensures var after := LogOf(Apply(h, logs, ops[n]), org);
            after != [] && after[..|after| - 1] == LogOf(logs, org) && WroteRow(ops, n, org, after[|after| - 1])
  {
    if ops[n].WriteOutcome? {
      var was := Find(LogOf(logs, org), ops[n].intent).value;
      var j: nat :| j < n && WroteRow(ops, j, org, was);
      assert Wrote(ops, j, org, ops[n].intent, was.rec.entry.action, was.rec.entry.resource, was.created);
    }
  }

  lemma {:induction false} RowsWereWritten(h: Hash, ops: seq<Op>, n: nat, org: Org)
    requires n <= |ops|
    ensures AllWritten(ops, n, org, LogOf(Run(h, map[], ops[..n]), org))
  {
    if n > 0 {
      RowsWereWritten(h, ops, n - 1, org);
      assert ops[..n] == ops[..n - 1] + [ops[n - 1]];
      RunSnoc(h, map[], ops[..n - 1], ops[n - 1]);
      ApplyWrites(h, Run(h, map[], ops[..n - 1]), ops, n - 1, org);
    }
  }

  /** No capability comes from anywhere else: what verifies was written in the last ten minutes for that very action and resource. */
  lemma CapabilityWasWritten(
    h: Hash, ops: seq<Op>, org: Org, id: Id, action: string, resource: Option<string>, now: int)
    requires VerifyCapability(LogOf(Run(h, map[], ops), org), id, action, resource, now)
    ensures exists k: nat, t :: Wrote(ops, k, org, id, action, resource, t) && now < t + 10 * 60
  {
    RowsWereWritten(h, ops, |ops|, org);
    assert ops[..|ops|] == ops;
    var row := Find(LogOf(Run(h, map[], ops), org), id).value;
    var k: nat :| k < |ops| && WroteRow(ops, k, org, row);
    assert Wrote(ops, k, org, id, action, resource, row.created);
  }

  lemma {:induction false} FindIn(all: seq<Row>, before: seq<Row>, row: Row)
    requires before + [row] <= all && Find(before, row.id).None?
    ensures Find(all, row.id) == Some(row)
  {
    if before == [] {
      assert all[0] == row;
    } else {
      assert all[0] == before[0];
      assert before[1..] + [row] <= all[1..];
      FindIn(all[1..], before[1..], row);
    }
  }
}
