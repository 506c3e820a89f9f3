/**
  `attach`, `remove` and `read`, statement by statement, with every failure the stores can raise.
  Each call is a run of the transition system, so it may equally be cut short or interleaved.
 */
module MediaRuntime {
  import opened Wrappers
  import opened Media
  import opened MediaSafety

  /** Which calls raise.  `deletes` names the objects whose deletion fails. */
  datatype Faults = Faults(put: Option<nat>, storedAnyway: bool, update: bool, commit: bool, deletes: set<Key>)

  datatype Outcome = Stored | Cleared | NoImage | NotFound | Raised

  function KeyList(ks: Keys, n: nat): seq<Key>
    requires n <= 3
  {
    [ks.primary, ks.thumbnail, ks.original][..n]
  }

  /** The store after trying to delete each of the keys in turn. */
  function Deleted(store: map<Key, Bytes>, keys: seq<Key>, failing: set<Key>): map<Key, Bytes> {
    if keys == [] then store
    else
      var n := |keys| - 1;
      Deleted(store, keys[..n], failing) - if keys[n] !in failing then {keys[n]} else {}
  }

  /** Exactly the listed keys whose deletion did not fail are gone. */
  lemma {:induction false} DeletedExactly(store: map<Key, Bytes>, keys: seq<Key>, failing: set<Key>, k: Key)
    ensures k in Deleted(store, keys, failing) <==> k in store && !(k in keys && k !in failing)
    ensures k in Deleted(store, keys, failing) ==> Deleted(store, keys, failing)[k] == store[k]
  {
    if keys != [] {
      DeletedExactly(store, keys[..|keys| - 1], failing, k);
      assert keys == keys[..|keys| - 1] + [keys[|keys| - 1]];
    }
  }

  lemma DeletedNext(store: map<Key, Bytes>, keys: seq<Key>, i: nat, failing: set<Key>)
    requires i < |keys|
    ensures Deleted(store, keys[..i + 1], failing) == Deleted(store, keys[..i], failing) - if keys[i] !in failing then {keys[i]} else {}
  {
    assert keys[..i + 1][..i] == keys[..i];
  }

  datatype Data = Data(primary: Bytes, thumbnail: Bytes, original: Bytes)

  function BytesAt(d: Data, i: nat): Bytes
    requires i < 3
  {
    if i == 0 then d.primary else if i == 1 then d.thumbnail else d.original
  }

  /** The store after the first `n` uploads. */
  function Uploaded(store: map<Key, Bytes>, keys: Keys, d: Data, n: nat): map<Key, Bytes>
    requires n <= 3
  {
    if n == 0 then store else Uploaded(store, keys, d, n - 1)[KeyAt(keys, n - 1) := BytesAt(d, n - 1)]
  }

  /** How far the uploads get: the failing one may still have stored its object. */
  function PutCount(f: Faults): nat {
    if f.put.Some? && f.put.value < 3 then f.put.value else 3
  }

  function Fails(f: Faults): bool {
    PutCount(f) < 3 || f.update || f.commit
  }

  /** The store when an attach has failed: its uploads, less those it managed to clean up. */
  function AfterFailure(store: map<Key, Bytes>, keys: Keys, d: Data, f: Faults): map<Key, Bytes> {
    var n := PutCount(f);
    Deleted(Uploaded(store, keys, d, if n < 3 && f.storedAnyway then n + 1 else n), KeyList(keys, n), f.deletes)
  }

  function PrevList(prev: Option<Keys>): seq<Key> {
    if prev.None? then [] else KeyList(prev.value, 3)
  }

  const VARIANTS: seq<string> := ["primary", "thumbnail"]

  function Variant(ks: Keys, variant: string): Key {
    if variant == "primary" then ks.primary else ks.thumbnail
  }

  function Get(store: map<Key, Bytes>, k: Key): Option<Bytes> {
    if k in store then Some(store[k]) else None
  }

  class Images {
    var rows: map<Item, Option<Keys>>
    var store: map<Key, Bytes>

    /** `_discard_keys`: every key is tried, no failure is raised. */
    method DiscardKeys(keys: seq<Key>, failing: set<Key>)
      modifies this`store
      ensures store == Deleted(old(store), keys, failing)
    {
      var i := 0;
      while i < |keys|
        invariant 0 <= i <= |keys|
        invariant store == Deleted(old(store), keys[..i], failing)
      {
        DeletedNext(old(store), keys, i, failing);
        store := store - if keys[i] !in failing then {keys[i]} else {};
        i := i + 1;
      }
      assert keys[..i] == keys;
    }

    /** Write new objects, stage the association, commit, and only then delete the old objects. */
    method AttachImage(item: Item, keys: Keys, d: Data, f: Faults) returns (outcome: Outcome)
      modifies this
      ensures item !in old(rows) ==> outcome == NotFound && rows == old(rows) && store == old(store)
      ensures var raises := (exists n :: f.put == Some(n) && n < 3) || f.update || f.commit;
              && outcome == (if item !in old(rows) then NotFound else if raises then Raised else Stored)
              && rows == if outcome == Stored then old(rows)[item := Some(keys)] else old(rows)
      ensures item in old(rows) && Fails(f) ==>
                outcome == Raised && rows == old(rows) && store == AfterFailure(old(store), keys, d, f)
      ensures item in old(rows) && !Fails(f) ==>
                && outcome == Stored && rows == old(rows)[item := Some(keys)]
                && store == Deleted(Uploaded(old(store), keys, d, 3), PrevList(old(rows)[item]), f.deletes)
    {
      if item !in rows {
        return NotFound;
      }
      var previous := rows[item];
      var written: seq<Key> := [];
      while |written| < 3
        invariant |written| <= PutCount(f) && written == KeyList(keys, |written|)
        invariant store == Uploaded(old(store), keys, d, |written|) && rows == old(rows)
      {
        var n := |written|;
        if f.put == Some(n) {
          if f.storedAnyway {
            store := store[KeyAt(keys, n) := BytesAt(d, n)];
          }
          DiscardKeys(written, f.deletes);
          return Raised;
        }
        store := store[KeyAt(keys, n) := BytesAt(d, n)];
        written := written + [KeyAt(keys, n)];
      }
      if f.update || f.commit {
        DiscardKeys(written, f.deletes);
        return Raised;
      }
      rows := rows[item := Some(keys)];
      DiscardKeys(PrevList(previous), f.deletes);
      outcome := Stored;
    }

    /** Clear the association, commit, then delete the objects. */
    method RemoveImage(item: Item, f: Faults) returns (outcome: Outcome)
      modifies this
      ensures item !in old(rows) ==> outcome == NotFound && rows == old(rows) && store == old(store)
      ensures item in old(rows) && old(rows)[item].None? ==> outcome == NoImage && rows == old(rows) && store == old(store)
      ensures item in old(rows) && old(rows)[item].Some? && (f.update || f.commit) ==>
                outcome == Raised && rows == old(rows) && store == old(store)
      ensures item in old(rows) && old(rows)[item].Some? && !(f.update || f.commit) ==>
                && outcome == Cleared && rows == old(rows)[item := None]
                && store == Deleted(old(store), PrevList(old(rows)[item]), f.deletes)
    {
      if item !in rows {
        return NotFound;
      }
      var keys := rows[item];
      if keys.None? {
        return NoImage;
      }
      if f.update || f.commit {
        return Raised;
      }
      rows := rows[item := None];
      DiscardKeys(PrevList(keys), f.deletes);
      outcome := Cleared;
    }

    /** `read`: the served variants only; an image whose object is gone reads as no image. */
    method ReadImage(item: Item, variant: string) returns (found: Option<Bytes>, missingItem: bool)
      ensures missingItem == (variant in VARIANTS && item !in rows)
      ensures found == (if item in rows && variant in VARIANTS && rows[item].Some? then Get(store, Variant(rows[item].value, variant)) else None)
      ensures item in rows && rows[item].Some? ==>
                var (keys, other) := (rows[item].value, variant != "primary" && variant != "thumbnail");
                && (variant == "primary" ==> found == if keys.primary in store then Some(store[keys.primary]) else None)
                && (variant == "thumbnail" ==> found == if keys.thumbnail in store then Some(store[keys.thumbnail]) else None)
                && (other ==> found == None && !missingItem)
    {
      if variant !in VARIANTS {
        return None, false;
      }
      if item !in rows {
        return None, true;
      }
      if rows[item].None? {
        return None, false;
      }
      found, missingItem := Get(store, Variant(rows[item].value, variant)), false;
    }
  }

  // ---- What one call leaves behind -----------------------------------------------------------

  lemma UploadedIs(store: map<Key, Bytes>, keys: Keys, d: Data, n: nat, k: Key)
    requires n <= 3 && Distinct(keys)
    ensures k in Uploaded(store, keys, d, n) <==> k in store || exists i :: 0 <= i < n && k == KeyAt(keys, i)
    ensures forall i :: 0 <= i < n ==> KeyAt(keys, i) in Uploaded(store, keys, d, n)
                                       && Uploaded(store, keys, d, n)[KeyAt(keys, i)] == BytesAt(d, i)
    ensures k in store && k !in KeySet(keys) ==> Uploaded(store, keys, d, n)[k] == store[k]
  {
    if n > 0 {
      UploadedIs(store, keys, d, n - 1, k);
    }
  }

  /** A failed attach leaves every earlier object intact; what it adds is an upload nobody could delete. */
  lemma FailedAttachKeepsEverything(store: map<Key, Bytes>, keys: Keys, d: Data, f: Faults, k: Key)
    requires Distinct(keys) && KeySet(keys) !! store.Keys && Fails(f)
    ensures k in store ==> k in AfterFailure(store, keys, d, f) && AfterFailure(store, keys, d, f)[k] == store[k]
    ensures k in AfterFailure(store, keys, d, f) && k !in store ==>
              k in KeySet(keys) && (k in f.deletes || (f.storedAnyway && f.put.Some? && f.put.value < 3 && k == KeyAt(keys, f.put.value)))
  {
    var n := PutCount(f);
    var m := if n < 3 && f.storedAnyway then n + 1 else n;
    UploadedIs(store, keys, d, m, k);
    DeletedExactly(Uploaded(store, keys, d, m), KeyList(keys, n), f.deletes, k);
    assert forall i :: 0 <= i < n ==> KeyList(keys, n)[i] == KeyAt(keys, i);
  }

  /** After a successful attach the new image is whole and the replaced one is gone, bar failed deletions. */
  lemma AttachReplaces(store: map<Key, Bytes>, prev: Option<Keys>, keys: Keys, d: Data, f: Faults, k: Key)
    requires Distinct(keys) && KeySet(keys) !! store.Keys && Referenced(prev) <= store.Keys
    ensures var s := Deleted(Uploaded(store, keys, d, 3), PrevList(prev), f.deletes);
            && keys.primary in s && s[keys.primary] == d.primary && keys.thumbnail in s && s[keys.thumbnail] == d.thumbnail
            && keys.original in s && s[keys.original] == d.original
            && (k in s <==> k in KeySet(keys) || (k in store && (k in Referenced(prev) ==> k in f.deletes)))
  {
    var up := Uploaded(store, keys, d, 3);
    UploadedIs(store, keys, d, 3, k);
    DeletedExactly(up, PrevList(prev), f.deletes, k);
    KeySetIs(keys, k);
    assert prev.Some? ==> PrevList(prev) == [prev.value.primary, prev.value.thumbnail, prev.value.original];
    assert k in PrevList(prev) <==> k in Referenced(prev);
    assert KeyAt(keys, 0) == keys.primary && KeyAt(keys, 1) == keys.thumbnail && KeyAt(keys, 2) == keys.original;
    assert BytesAt(d, 0) == d.primary && BytesAt(d, 1) == d.thumbnail && BytesAt(d, 2) == d.original;
    forall i | 0 <= i < 3 ensures KeyAt(keys, i) in Deleted(up, PrevList(prev), f.deletes)
                                  && Deleted(up, PrevList(prev), f.deletes)[KeyAt(keys, i)] == BytesAt(d, i)
    {
      KeySetIs(keys, KeyAt(keys, i));
      DeletedExactly(up, PrevList(prev), f.deletes, KeyAt(keys, i));
    }
  }

  // ---- Undisturbed calls are runs of the transition system -----------------------------------

  ghost predicate Reaches(s: State, s': State) {
    exists run :: ValidRun(s, run) && Exec(s, run) == s'
  }

  lemma Here(s: State)
    ensures Reaches(s, s)
  {
    assert ValidRun(s, []) && Exec(s, []) == s;
  }

  lemma {:induction false} ExecSnoc(s: State, run: seq<Move>, m: Move)
    requires ValidRun(s, run) && Enabled(Exec(s, run), m.w, m.st) && m.st != CommitRaises(true)
    ensures ValidRun(s, run + [m]) && Exec(s, run + [m]) == Next(Exec(s, run), m.w, m.st)
    decreases |run|
  {
    if run == [] {
      assert [m][1..] == [] && run + [m] == [m];
    } else {
      assert (run + [m])[1..] == run[1..] + [m];
      ExecSnoc(Next(s, run[0].w, run[0].st), run[1..], m);
    }
  }

  /** `s` leads to `s'` by one step of `w`. */
  predicate Steps(s: State, w: nat, st: Step, s': State) {
    Enabled(s, w, st) && st != CommitRaises(true) && Next(s, w, st) == s'
  }

  lemma OneMore(s0: State, s: State, w: nat, st: Step, s': State)
    requires Reaches(s0, s) && Steps(s, w, st, s')
    ensures Reaches(s0, s')
  {
    var run :| ValidRun(s0, run) && Exec(s0, run) == s;
    ExecSnoc(s0, run, Move(w, st));
  }

  /** The state after starting an attach and uploading `n` objects. */
  function Uploading(s: State, w: nat, item: Item, keys: Keys, d: Data, n: nat): State
    requires n <= 3 && item in s.rows
  {
    State(s.rows, Uploaded(s.store, keys, d, n), s.ops[w := Attach(item, s.rows[item], keys, Putting(n))],
          WithHome(s, keys, item), WithContent(s, keys, d.primary, d.thumbnail, d.original), s.published)
  }

  lemma ContentIs(s: State, keys: Keys, d: Data, i: nat)
    requires i < 3 && Distinct(keys)
    ensures var c := WithContent(s, keys, d.primary, d.thumbnail, d.original); KeyAt(keys, i) in c && c[KeyAt(keys, i)] == BytesAt(d, i)
  {
  }

  lemma PutStep(s: State, w: nat, item: Item, keys: Keys, d: Data, n: nat)
    requires n < 3 && item in s.rows && Distinct(keys)
    ensures Steps(Uploading(s, w, item, keys, d, n), w, Put, Uploading(s, w, item, keys, d, n + 1))
  {
    ContentIs(s, keys, d, n);
    assert s.ops[w := Attach(item, s.rows[item], keys, Putting(n))][w := Attach(item, s.rows[item], keys, Putting(n + 1))]
        == s.ops[w := Attach(item, s.rows[item], keys, Putting(n + 1))];
  }

  lemma {:induction false} UploadsReach(s: State, w: nat, item: Item, keys: Keys, d: Data, n: nat)
    requires n <= 3 && w !in s.ops && item in s.rows && Distinct(keys) && KeySet(keys) !! s.home.Keys
    ensures Reaches(s, Uploading(s, w, item, keys, d, n))
  {
    if n == 0 {
      Here(s);
      OneMore(s, s, w, StartAttach(item, keys, d.primary, d.thumbnail, d.original), Uploading(s, w, item, keys, d, 0));
    } else {
      UploadsReach(s, w, item, keys, d, n - 1);
      PutStep(s, w, item, keys, d, n - 1);
      OneMore(s, Uploading(s, w, item, keys, d, n - 1), w, Put, Uploading(s, w, item, keys, d, n));
    }
  }

  /** The association staged, with everything uploaded. */
  function StagedState(s: State, w: nat, item: Item, keys: Keys, d: Data): State
    requires item in s.rows
  {
    Uploading(s, w, item, keys, d, 3).(ops := s.ops[w := Attach(item, s.rows[item], keys, Staged)])
  }

  function CommittedState(s: State, w: nat, item: Item, keys: Keys, d: Data): State
    requires item in s.rows
  {
    var u := Uploading(s, w, item, keys, d, 3);
    State(s.rows[item := Some(keys)], u.store, s.ops[w := Attach(item, s.rows[item], keys, Done(0))],
          u.home, u.content, s.published + KeySet(keys))
  }

  function FailedState(s: State, w: nat, item: Item, keys: Keys, d: Data, f: Faults): State
    requires item in s.rows
  {
    var n := PutCount(f);
    Uploading(s, w, item, keys, d, n)
      .(store := Uploaded(s.store, keys, d, if n < 3 && f.storedAnyway then n + 1 else n),
        ops := s.ops[w := Attach(item, s.rows[item], keys, Failed(n, 0))])
  }

  lemma CommitSteps(s: State, w: nat, item: Item, keys: Keys, d: Data)
    requires w !in s.ops && item in s.rows
    requires forall v :: v in s.ops && s.ops[v].item == item ==> s.ops[v].phase != Staged
    ensures Steps(Uploading(s, w, item, keys, d, 3), w, Stage, StagedState(s, w, item, keys, d))
    ensures Steps(StagedState(s, w, item, keys, d), w, Commit, CommittedState(s, w, item, keys, d))
  {
    var a := Attach(item, s.rows[item], keys, Staged);
    assert s.ops[w := Attach(item, s.rows[item], keys, Putting(3))][w := a] == s.ops[w := a];
    assert s.ops[w := a][w := Attach(item, s.rows[item], keys, Done(0))] == s.ops[w := Attach(item, s.rows[item], keys, Done(0))];
  }

  lemma FailureStep(s: State, w: nat, item: Item, keys: Keys, d: Data, f: Faults)
    requires w !in s.ops && item in s.rows && Distinct(keys) && Fails(f)
    ensures var st := if PutCount(f) < 3 then PutRaises(f.storedAnyway) else StageRaises;
            Steps(Uploading(s, w, item, keys, d, PutCount(f)), w, st, FailedState(s, w, item, keys, d, f))
  {
    var n := PutCount(f);
    if n < 3 { ContentIs(s, keys, d, n); }
    var a := Attach(item, s.rows[item], keys, Failed(n, 0));
    assert s.ops[w := Attach(item, s.rows[item], keys, Putting(n))][w := a] == s.ops[w := a];
  }

  function CleaningOp(op: Op, n: nat, i: nat): Op {
    var phase := if op.phase.Failed? then Failed(n, i) else Done(i);
    match op
    case Attach(item, prev, keys, _) => Attach(item, prev, keys, phase)
    case Remove(item, prev, _) => Remove(item, prev, phase)
  }

  /** The operation is at the `i`-th of the keys it deletes. */
  ghost predicate At(op: Op, list: seq<Key>, i: nat) {
    && |list| <= 3 && op == CleaningOp(op, |list|, i)
    && ((op.Attach? && op.phase.Failed?) || op.phase.Done?)
    && list == if op.phase.Failed? then KeyList(op.keys, |list|) else PrevList(op.prev)
  }

  function Cleaned(s: State, w: nat, list: seq<Key>, i: nat, failing: set<Key>): State
    requires w in s.ops && i < |list|
  {
    s.(ops := s.ops[w := CleaningOp(s.ops[w], |list|, i + 1)], store := s.store - if list[i] !in failing then {list[i]} else {})
  }

  lemma DiscardStep(s: State, w: nat, list: seq<Key>, i: nat, failing: set<Key>)
    requires w in s.ops && At(s.ops[w], list, i) && i < |list|
    ensures Steps(s, w, Step.Discard(list[i] !in failing), Cleaned(s, w, list, i, failing))
    ensures At(Cleaned(s, w, list, i, failing).ops[w], list, i + 1)
  {
    assert list[i] == Victim(s.ops[w]);
    assert s.store - {} == s.store;
  }

  /** Deleting its victims one by one, then returning. */
  lemma {:induction false} CleanupReaches(s0: State, s: State, w: nat, list: seq<Key>, i: nat, failing: set<Key>)
    requires Reaches(s0, s) && w in s.ops && i <= |list| && At(s.ops[w], list, i)
    ensures Reaches(s0, s.(ops := s.ops - {w}, store := Deleted(s.store, list[i..], failing)))
    decreases |list| - i
  {
    if i == |list| {
      OneMore(s0, s, w, Die, s.(ops := s.ops - {w}));
    } else {
      var s1 := Cleaned(s, w, list, i, failing);
      DiscardStep(s, w, list, i, failing);
      OneMore(s0, s, w, Step.Discard(list[i] !in failing), s1);
      CleanupReaches(s0, s1, w, list, i + 1, failing);
      CleanedRest(s, w, list, i, failing);
    }
  }

  lemma CleanedRest(s: State, w: nat, list: seq<Key>, i: nat, failing: set<Key>)
    requires w in s.ops && i < |list|
    ensures var s1 := Cleaned(s, w, list, i, failing);
            s1.(ops := s1.ops - {w}, store := Deleted(s1.store, list[i + 1..], failing))
            == s.(ops := s.ops - {w}, store := Deleted(s.store, list[i..], failing))
  {
    DeletedFront(s.store, list[i..], failing);
    assert list[i..][1..] == list[i + 1..];
    assert Cleaned(s, w, list, i, failing).ops - {w} == s.ops - {w};
  }

  lemma {:induction false} DeletedFront(store: map<Key, Bytes>, keys: seq<Key>, failing: set<Key>)
    requires keys != []
    ensures Deleted(store, keys, failing) == Deleted(store - (if keys[0] !in failing then {keys[0]} else {}), keys[1..], failing)
  {
    var n := |keys| - 1;
    if n > 0 {
      DeletedFront(store, keys[..n], failing);
      assert keys[..n][1..] == keys[1..][..n - 1];
    } else {
      assert keys[..0] == [] && keys[1..] == [];
    }
  }

  /** A successful attach with nobody else at the row is one such run, ending with no operation left over. */
  lemma AttachIsARun(s: State, w: nat, item: Item, keys: Keys, d: Data, failing: set<Key>)
    requires w !in s.ops && item in s.rows && Distinct(keys) && KeySet(keys) !! s.home.Keys
    requires forall v :: v in s.ops && s.ops[v].item == item ==> s.ops[v].phase != Staged
    ensures exists s' :: Reaches(s, s') && s'.ops == s.ops && s'.rows == s.rows[item := Some(keys)]
                         && s'.store == Deleted(Uploaded(s.store, keys, d, 3), PrevList(s.rows[item]), failing)
  {
    UploadsReach(s, w, item, keys, d, 3);
    CommitSteps(s, w, item, keys, d);
    OneMore(s, Uploading(s, w, item, keys, d, 3), w, Stage, StagedState(s, w, item, keys, d));
    var c := CommittedState(s, w, item, keys, d);
    OneMore(s, StagedState(s, w, item, keys, d), w, Commit, c);
    var list := PrevList(s.rows[item]);
    CleanupReaches(s, c, w, list, 0, failing);
    assert c.ops - {w} == s.ops && list[0..] == list;
  }

  /** So is a failing one, whichever call raised. */
  lemma FailedAttachIsARun(s: State, w: nat, item: Item, keys: Keys, d: Data, f: Faults)
    requires w !in s.ops && item in s.rows && Distinct(keys) && KeySet(keys) !! s.home.Keys && Fails(f)
    ensures exists s' :: Reaches(s, s') && s'.ops == s.ops && s'.rows == s.rows
                         && s'.store == AfterFailure(s.store, keys, d, f)
  {
    var n := PutCount(f);
    UploadsReach(s, w, item, keys, d, n);
    FailureStep(s, w, item, keys, d, f);
    var c := FailedState(s, w, item, keys, d, f);
    OneMore(s, Uploading(s, w, item, keys, d, n), w, if n < 3 then PutRaises(f.storedAnyway) else StageRaises, c);
    var list := KeyList(keys, n);
    CleanupReaches(s, c, w, list, 0, f.deletes);
    assert c.ops - {w} == s.ops && list[0..] == list;
  }

  /** The removal as it goes: begun, staged, or committed and about to delete. */
  function Removing(s: State, w: nat, item: Item, phase: Phase): State
    requires item in s.rows
  {
    State(if phase.Done? then s.rows[item := None] else s.rows, s.store, s.ops[w := Remove(item, s.rows[item], phase)],
          s.home, s.content, s.published)
  }

  lemma RemoveSteps(s: State, w: nat, item: Item)
    requires w !in s.ops && item in s.rows && s.rows[item].Some?
    ensures Steps(s, w, StartRemove(item), Removing(s, w, item, Putting(0)))
    ensures Steps(Removing(s, w, item, Putting(0)), w, StageRaises, Removing(s, w, item, Failed(0, 0)))
    ensures Steps(Removing(s, w, item, Staged), w, CommitRaises(false), Removing(s, w, item, Failed(0, 0)))
    ensures Steps(Removing(s, w, item, Staged), w, Commit, Removing(s, w, item, Done(0)))
  {
    var (a, b) := (Remove(item, s.rows[item], Putting(0)), Remove(item, s.rows[item], Staged));
    var (c, d) := (Remove(item, s.rows[item], Failed(0, 0)), Remove(item, s.rows[item], Done(0)));
    assert s.ops[w := a][w := c] == s.ops[w := c] == s.ops[w := b][w := c];
    assert s.ops[w := b][w := d] == s.ops[w := d];
  }

  lemma RemoveEnds(s: State, w: nat, item: Item)
    requires w !in s.ops && item in s.rows
    ensures Steps(Removing(s, w, item, Failed(0, 0)), w, Die, s)
  {
    assert s.ops[w := Remove(item, s.rows[item], Failed(0, 0))] - {w} == s.ops;
  }

  lemma RemoveFails(s: State, w: nat, item: Item, atCommit: bool)
    requires w !in s.ops && item in s.rows && s.rows[item].Some?
    requires Reaches(s, Removing(s, w, item, Putting(0))) && Reaches(s, Removing(s, w, item, Staged))
    ensures Reaches(s, Removing(s, w, item, Failed(0, 0)))
  {
    RemoveSteps(s, w, item);
    var failed := Removing(s, w, item, Failed(0, 0));
    if atCommit {
      OneMore(s, Removing(s, w, item, Staged), w, CommitRaises(false), failed);
    } else {
      OneMore(s, Removing(s, w, item, Putting(0)), w, StageRaises, failed);
    }
  }

  lemma RemoveStages(s: State, w: nat, item: Item)
    requires w !in s.ops && item in s.rows && s.rows[item].Some?
    requires forall v :: v in s.ops && s.ops[v].item == item ==> s.ops[v].phase != Staged
    ensures Reaches(s, Removing(s, w, item, Putting(0))) && Reaches(s, Removing(s, w, item, Staged))
  {
    RemoveSteps(s, w, item);
    Here(s);
    OneMore(s, s, w, StartRemove(item), Removing(s, w, item, Putting(0)));
    var b := Remove(item, s.rows[item], Staged);
    assert s.ops[w := Remove(item, s.rows[item], Putting(0))][w := b] == s.ops[w := b];
    OneMore(s, Removing(s, w, item, Putting(0)), w, Stage, Removing(s, w, item, Staged));
  }

  /** A successful removal with nobody else at the row is a run of the transition system. */
  lemma RemoveIsARun(s: State, w: nat, item: Item, failing: set<Key>)
    requires w !in s.ops && item in s.rows && s.rows[item].Some?
    requires forall v :: v in s.ops && s.ops[v].item == item ==> s.ops[v].phase != Staged
    ensures exists s' :: Reaches(s, s') && s'.ops == s.ops && s'.rows == s.rows[item := None]
                         && s'.store == Deleted(s.store, PrevList(s.rows[item]), failing)
  {
    RemoveStages(s, w, item);
    RemoveSteps(s, w, item);
    var c := Removing(s, w, item, Done(0));
    OneMore(s, Removing(s, w, item, Staged), w, Commit, c);
    var list := PrevList(s.rows[item]);
    CleanupReaches(s, c, w, list, 0, failing);
    assert c.ops - {w} == s.ops && list[0..] == list;
  }

  /** So is a failing one, whether the update or the commit raised: the operation ends, nothing else has changed. */
  lemma FailedRemoveIsARun(s: State, w: nat, item: Item, atCommit: bool)
    requires w !in s.ops && item in s.rows && s.rows[item].Some?
    requires forall v :: v in s.ops && s.ops[v].item == item ==> s.ops[v].phase != Staged
    ensures var failed := Removing(s, w, item, Failed(0, 0)); Reaches(s, failed) && Steps(failed, w, Die, s)
  {
    RemoveStages(s, w, item);
    RemoveFails(s, w, item, atCommit);
    RemoveEnds(s, w, item);
  }
}
