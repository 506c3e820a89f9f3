/**
  The per-organisation audit chain: what is hashed, how entries are appended, how a chain is
  verified.  The hash is any function from text to lower-case hex text; results that need it to be
  collision-free say so by naming the collision that would break them.
 */
module Audit {
  import opened Wrappers
  import opened Json

  type Hash = string -> string

  datatype Entry = Entry(
    actorType: string,
    actorId: Option<string>,
    action: string,
    resource: Option<string>,
    payload: map<string, Value>,
    manifestHash: Option<string>)

  /** Every hashed field, the link and the hash itself. */
  datatype Record = Record(number: int, entry: Entry, prevHash: string, entryHash: string)

  const GENESIS := ""
  const CAPABILITY_TTL: int := 600

  function OrNull(s: Option<string>): Value {
    match s
    case None => Null
    case Some(v) => Str(v)
  }

  function Body(number: int, e: Entry): Value {
    Obj(map[
          "seq" := Int(number),
          "actor_type" := Str(e.actorType),
          "actor_id" := OrNull(e.actorId),
          "action" := Str(e.action),
          "resource" := OrNull(e.resource),
          "payload" := Obj(e.payload),
          "permission_manifest_hash" := OrNull(e.manifestHash)])
  }

  function Hashed(prevHash: string, number: int, e: Entry): string {
    prevHash + Print(Body(number, e))
  }

  function EntryHash(h: Hash, prevHash: string, number: int, e: Entry): string {
    h(Hashed(prevHash, number, e))
  }

  // ---- Chains --------------------------------------------------------------------------------

  ghost predicate GoodAt(h: Hash, rs: seq<Record>, i: nat)
    requires i < |rs|
  {
    && rs[i].number == rs[0].number + i
    && (i > 0 ==> rs[i].prevHash == rs[i - 1].entryHash)
    && (i == 0 && rs[0].number == 1 ==> rs[0].prevHash == GENESIS)
    && rs[i].entryHash == EntryHash(h, rs[i].prevHash, rs[i].number, rs[i].entry)
  }

  ghost predicate Segment(h: Hash, rs: seq<Record>) {
    forall i :: 0 <= i < |rs| ==> GoodAt(h, rs, i)
  }

  /** Numbered 1..n from the empty hash, every link and every hash right. */
  ghost predicate Chain(h: Hash, rs: seq<Record>) {
    Segment(h, rs) && (rs != [] ==> rs[0].number == 1)
  }

  /**
    `verify_chain`: None exactly for an intact segment; otherwise the number of the first bad
    record, everything before it being intact.
   */
  method VerifyChain(h: Hash, rs: seq<Record>) returns (broken: Option<int>)
    ensures broken.None? <==> Segment(h, rs)
    ensures broken.Some? ==> exists i :: 0 <= i < |rs| && rs[i].number == broken.value && !GoodAt(h, rs, i) && Segment(h, rs[..i])
  {
    if rs == [] {
      return None;
    }
    var first := rs[0];
    if first.number == 1 && first.prevHash != GENESIS {
      assert !GoodAt(h, rs, 0) && Segment(h, rs[..0]);
      return Some(1);
    }
    var expectedPrev := first.prevHash;
    var expectedSeq := first.number;
    var i := 0;
    while i < |rs|
      invariant 0 <= i <= |rs|
      invariant expectedSeq == rs[0].number + i
      invariant expectedPrev == if i == 0 then rs[0].prevHash else rs[i - 1].entryHash
      invariant forall j :: 0 <= j < i ==> GoodAt(h, rs, j)
    {
      var rec := rs[i];
      PrefixGood(h, rs, i);
      if rec.number != expectedSeq {
        assert !GoodAt(h, rs, i);
        return Some(rec.number);
      }
      if rec.prevHash != expectedPrev {
        assert !GoodAt(h, rs, i);
        return Some(rec.number);
      }
      if EntryHash(h, rec.prevHash, rec.number, rec.entry) != rec.entryHash {
        assert !GoodAt(h, rs, i);
        return Some(rec.number);
      }
      expectedPrev := rec.entryHash;
      expectedSeq := rec.number + 1;
      i := i + 1;
    }
    return None;
  }

  lemma PrefixGood(h: Hash, rs: seq<Record>, n: nat)
    requires n <= |rs| && forall j :: 0 <= j < n ==> GoodAt(h, rs, j)
    ensures Segment(h, rs[..n])
  {
    forall j | 0 <= j < n ensures GoodAt(h, rs[..n], j) {
      assert GoodAt(h, rs, j);
    }
  }

  // ---- Appending -----------------------------------------------------------------------------

  type Org = string
  type Id = nat   // a fresh row id

  datatype Row = Row(id: Id, org: Org, rec: Record, created: int)
  datatype Capability = Capability(id: Id, expires: int)

  function Records(rows: seq<Row>): seq<Record> {
    seq(|rows|, i requires 0 <= i < |rows| => rows[i].rec)
  }

  function LogOf(logs: map<Org, seq<Row>>, org: Org): seq<Row> {
    if org in logs then logs[org] else []
  }

  function NextRecord(h: Hash, rows: seq<Row>, e: Entry): Record {
    var number := if rows == [] then 1 else rows[|rows| - 1].rec.number + 1;
    var prev := if rows == [] then GENESIS else rows[|rows| - 1].rec.entryHash;
    Record(number, e, prev, EntryHash(h, prev, number, e))
  }

  lemma AppendKeepsChain(h: Hash, rows: seq<Row>, row: Row)
    requires Chain(h, Records(rows)) && row.rec == NextRecord(h, rows, row.rec.entry)
    ensures Chain(h, Records(rows + [row]))
  {
    var rs, more := Records(rows), Records(rows + [row]);
    forall i | 0 <= i < |more| ensures GoodAt(h, more, i) {
      if i < |rs| {
        assert GoodAt(h, rs, i);
      } else if rows != [] {
        assert GoodAt(h, rs, i - 1);
      }
    }
  }

  class AuditLog {
    const h: Hash
    var logs: map<Org, seq<Row>>

    ghost predicate Valid()
      reads this
    {
      forall org :: org in logs ==> Chain(h, Records(logs[org]))
    }

    constructor (h: Hash)
      ensures Valid() && logs == map[] && this.h == h
    {
      this.h := h;
      this.logs := map[];
    }

    /** `write`: under the organisation's advisory lock, one record is linked to its head. */
    method Write(org: Org, e: Entry, id: Id, now: int) returns (cap: Capability)
      requires Valid()
      modifies this
      ensures Valid() && cap == Capability(id, now + CAPABILITY_TTL)
      ensures logs == old(logs)[org := LogOf(old(logs), org) + [Row(id, org, NextRecord(h, LogOf(old(logs), org), e), now)]]
    {
      var rows := LogOf(logs, org);
      var number, prev := 1, GENESIS;
      if rows != [] {
        number, prev := rows[|rows| - 1].rec.number + 1, rows[|rows| - 1].rec.entryHash;
      }
      var row := Row(id, org, Record(number, e, prev, EntryHash(h, prev, number, e)), now);
      AppendKeepsChain(h, rows, row);
      logs := logs[org := rows + [row]];
      cap := Capability(id, now + CAPABILITY_TTL);
    }

    /** `write_outcome` in the session of `org`: a compensating entry for one of its intents. */
    method WriteOutcome(org: Org, intent: Id, intentText: string, outcome: string, detail: Option<string>, id: Id, now: int)
      returns (cap: Option<Capability>)
      requires Valid()
      modifies this
      ensures Valid()
      ensures Find(LogOf(old(logs), org), intent).None? ==> cap.None? && logs == old(logs)
      ensures Find(LogOf(old(logs), org), intent).Some? ==>
                var was := Find(LogOf(old(logs), org), intent).value.rec.entry;
                var e := Entry(was.actorType, was.actorId, was.action + ":" + outcome, was.resource,
                               map["intent_audit_id" := Str(intentText), "detail" := OrNull(detail)], None);
                && cap == Some(Capability(id, now + CAPABILITY_TTL))
                && logs == old(logs)[org := LogOf(old(logs), org) + [Row(id, org, NextRecord(h, LogOf(old(logs), org), e), now)]]
    {
      var found := Find(LogOf(logs, org), intent);
      if found.None? {
        return None;
      }
      var c := Write(org, Outcome(found.value.rec.entry, intentText, outcome, detail), id, now);
      cap := Some(c);
    }
  }

  function Find(rows: seq<Row>, id: Id): (r: Option<Row>)
    ensures r.Some? ==> r.value in rows && r.value.id == id
    ensures r.None? ==> forall i :: 0 <= i < |rows| ==> rows[i].id != id
  {
    if rows == [] then None else if rows[0].id == id then Some(rows[0]) else Find(rows[1..], id)
  }

  function Outcome(was: Entry, intentText: string, outcome: string, detail: Option<string>): Entry {
    Entry(was.actorType, was.actorId, was.action + ":" + outcome, was.resource,
          map["intent_audit_id" := Str(intentText), "detail" := OrNull(detail)], None)
  }

  /** `verify_capability`: the row exists, is younger than ten minutes and names this action and resource. */
  function VerifyCapability(rows: seq<Row>, id: Id, action: string, resource: Option<string>, now: int): bool {
    match Find(rows, id)
    case None => false
    case Some(row) => now < row.created + CAPABILITY_TTL && row.rec.entry.action == action && row.rec.entry.resource == resource
  }
}
