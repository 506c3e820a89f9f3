/**
  Product images in two stores that share no transaction: the `media_keys` column of a catalog row
  and an object store.  Any number of attach and remove operations interleave; every step may fail
  and every process may die.
 */
module Media {
  import opened Wrappers

  type Item = nat
  type Key = nat
  type Bytes = seq<int>

  datatype Keys = Keys(primary: Key, thumbnail: Key, original: Key)
  /** `Failed` cleans up its own first `written` objects; `Done` deletes what it replaced. */
  datatype Phase = Putting(n: nat) | Staged | Failed(written: nat, next: nat) | Done(next: nat)

  datatype Op =
    | Attach(item: Item, prev: Option<Keys>, keys: Keys, phase: Phase)
    | Remove(item: Item, prev: Option<Keys>, phase: Phase)

  /** `home`, `content` and `published` are history: what each minted key is for, and if it was ever committed. */
  datatype State = State(
    rows: map<Item, Option<Keys>>,
    store: map<Key, Bytes>,
    ops: map<nat, Op>,
    home: map<Key, Item>,
    content: map<Key, Bytes>,
    published: set<Key>)

  datatype Step =
    | StartAttach(item: Item, keys: Keys, primary: Bytes, thumbnail: Bytes, original: Bytes)
    | StartRemove(item: Item)
    | Put
    | PutRaises(stored: bool)
    | Stage
    | StageRaises
    | Commit
    | CommitRaises(applied: bool)
    | Discard(deleted: bool)
    | Die

  function KeyAt(ks: Keys, i: nat): Key
    requires i < 3
  {
    if i == 0 then ks.primary else if i == 1 then ks.thumbnail else ks.original
  }

  function KeySet(ks: Keys): set<Key> {
    {ks.primary, ks.thumbnail, ks.original}
  }

  function Referenced(o: Option<Keys>): set<Key> {
    if o.None? then {} else KeySet(o.value)
  }

  function WithContent(s: State, keys: Keys, a: Bytes, b: Bytes, c: Bytes): map<Key, Bytes> {
    s.content[keys.primary := a][keys.thumbnail := b][keys.original := c]
  }

  function WithHome(s: State, keys: Keys, item: Item): map<Key, Item> {
    s.home[keys.primary := item][keys.thumbnail := item][keys.original := item]
  }

  predicate Distinct(ks: Keys) {
    ks.primary != ks.thumbnail && ks.thumbnail != ks.original && ks.primary != ks.original
  }

  predicate Enabled(s: State, w: nat, st: Step) {
    match st
    case StartAttach(item, keys, a, b, c) => w !in s.ops && item in s.rows && Distinct(keys) && KeySet(keys) !! s.home.Keys
    case StartRemove(item) => w !in s.ops && item in s.rows && s.rows[item].Some?
    case Die => w in s.ops
    case _ => w in s.ops && EnabledFor(s, s.ops[w], st)
  }

  /** An UPDATE waits for the row lock, which an operation holds from staging to its commit. */
  predicate EnabledFor(s: State, op: Op, st: Step) {
    match st
    case Put => op.Attach? && op.phase.Putting? && op.phase.n < 3 && KeyAt(op.keys, op.phase.n) in s.content
    case PutRaises(stored) => op.Attach? && op.phase.Putting? && op.phase.n < 3 && KeyAt(op.keys, op.phase.n) in s.content
    case Stage => op.phase.Putting? && (op.Attach? ==> op.phase.n == 3)
                  && forall v :: v in s.ops && s.ops[v].item == op.item ==> s.ops[v].phase != Staged
    case StageRaises => op.phase.Putting? && (op.Attach? ==> op.phase.n == 3)
    case Commit => op.phase.Staged? && op.item in s.rows
    case CommitRaises(applied) => op.phase.Staged? && op.item in s.rows
    case Discard(deleted) =>
      || (op.phase.Failed? && op.Attach? && op.phase.next < op.phase.written <= 3)
      || (op.phase.Done? && op.prev.Some? && op.phase.next < 3)
    case _ => false
  }

  function Fail(op: Op, written: nat): Op {
    match op
    case Attach(item, prev, keys, _) => Attach(item, prev, keys, Failed(written, 0))
    case Remove(item, prev, _) => Remove(item, prev, Failed(0, 0))
  }

  function Commits(s: State, w: nat): State
    requires w in s.ops
  {
    var op := s.ops[w];
    if op.Attach? then
      s.(rows := s.rows[op.item := Some(op.keys)], published := s.published + KeySet(op.keys))
    else
      s.(rows := s.rows[op.item := None])
  }

  /** The key the operation is about to delete. */
  function Victim(op: Op): Key
    requires (op.phase.Failed? && op.Attach? && op.phase.next < 3) || (op.phase.Done? && op.prev.Some? && op.phase.next < 3)
  {
    if op.phase.Failed? then KeyAt(op.keys, op.phase.next) else KeyAt(op.prev.value, op.phase.next)
  }

  function SetOp(s: State, w: nat, op: Op): State {
    s.(ops := s.ops[w := op])
  }

  function Next(s: State, w: nat, st: Step): State
    requires Enabled(s, w, st)
  {
    match st
    case StartAttach(item, keys, a, b, c) =>
      SetOp(s, w, Attach(item, s.rows[item], keys, Putting(0)))
        .(home := WithHome(s, keys, item), content := WithContent(s, keys, a, b, c))
    case StartRemove(item) => SetOp(s, w, Remove(item, s.rows[item], Putting(0)))
    case Die => s.(ops := s.ops - {w})
    case _ => NextFor(s, w, st)
  }

  function NextFor(s: State, w: nat, st: Step): State
    requires w in s.ops && EnabledFor(s, s.ops[w], st)
  {
    var op := s.ops[w];
    match st
    case Put =>
      var k := KeyAt(op.keys, op.phase.n);
      SetOp(s, w, op.(phase := Putting(op.phase.n + 1))).(store := s.store[k := s.content[k]])
    case PutRaises(stored) =>
      var k := KeyAt(op.keys, op.phase.n);
      SetOp(s, w, Fail(op, op.phase.n)).(store := if stored then s.store[k := s.content[k]] else s.store)
    case Stage => SetOp(s, w, op.(phase := Staged))
    case StageRaises => SetOp(s, w, Fail(op, 3))
    case Commit => SetOp(Commits(s, w), w, op.(phase := Done(0)))
    case CommitRaises(applied) => SetOp(if applied then Commits(s, w) else s, w, Fail(op, 3))
    case Discard(deleted) =>
      var op' := op.(phase := if op.phase.Failed? then Failed(op.phase.written, op.phase.next + 1) else Done(op.phase.next + 1));
      SetOp(s, w, op').(store := if deleted then s.store - {Victim(op)} else s.store)
  }

  datatype Move = Move(w: nat, st: Step)

  /** A run in which no commit was applied although it raised. */
  predicate ValidRun(s: State, run: seq<Move>)
    decreases |run|
  {
    run == [] ||
    (Enabled(s, run[0].w, run[0].st) && run[0].st != CommitRaises(true) && ValidRun(Next(s, run[0].w, run[0].st), run[1..]))
  }

  function Exec(s: State, run: seq<Move>): State
    requires ValidRun(s, run)
    decreases |run|
  {
    if run == [] then s else Exec(Next(s, run[0].w, run[0].st), run[1..])
  }

  // ---- The guarantee -------------------------------------------------------------------------

  /** Every committed key exists in the store, with the bytes written for it. */
  ghost predicate Whole(s: State) {
    forall item, k :: item in s.rows && k in Referenced(s.rows[item]) ==>
                        k in s.store && k in s.content && s.store[k] == s.content[k]
  }

  predicate Uncommitted(op: Op) {
    op.Attach? && !op.phase.Done?
  }

  ghost predicate OpOk(s: State, op: Op) {
    && op.item in s.rows
    && Referenced(op.prev) <= s.published
    && (forall k :: k in Referenced(op.prev) ==> k in s.home && s.home[k] == op.item)
    && (op.phase.Done? ==> Referenced(op.prev) !! Referenced(s.rows[op.item]))
    && (Uncommitted(op) ==> AttachOk(s, op))
  }

  ghost predicate AttachOk(s: State, op: Op)
    requires op.Attach?
  {
    && KeySet(op.keys) !! s.published
    && (forall k :: k in KeySet(op.keys) ==> k in s.home && s.home[k] == op.item && k in s.content)
    && (op.phase.Putting? ==> op.phase.n <= 3 && forall i :: 0 <= i < op.phase.n ==> Written(s, KeyAt(op.keys, i)))
    && (op.phase.Staged? ==> forall i :: 0 <= i < 3 ==> Written(s, KeyAt(op.keys, i)))
  }

  ghost predicate Written(s: State, k: Key) {
    k in s.store && k in s.content && s.store[k] == s.content[k]
  }

  ghost predicate Ledger(s: State) {
    && s.published <= s.home.Keys
    && (forall item, k :: item in s.rows && k in Referenced(s.rows[item]) ==> k in s.published && s.home[k] == item)
  }

  ghost predicate Disjoint(s: State) {
    forall v, w :: v in s.ops && w in s.ops && v != w && Uncommitted(s.ops[v]) && Uncommitted(s.ops[w])
                   ==> KeySet(s.ops[v].keys) !! KeySet(s.ops[w].keys)
  }

  ghost predicate OpsOk(s: State) {
    forall w :: w in s.ops ==> OpOk(s, s.ops[w])
  }

  ghost predicate Inv(s: State) {
    Whole(s) && Ledger(s) && Disjoint(s) && OpsOk(s)
  }
}

module MediaSafety {
  import opened Wrappers
  import opened Media

  lemma KeySetIs(ks: Keys, k: Key)
    ensures k in KeySet(ks) <==> exists i :: 0 <= i < 3 && KeyAt(ks, i) == k
  {
    assert KeyAt(ks, 0) == ks.primary && KeyAt(ks, 1) == ks.thumbnail && KeyAt(ks, 2) == ks.original;
  }

  /** The key an operation deletes is never referenced and never another attach's. */
  lemma VictimIsFree(s: State, w: nat, k: Key)
    requires Inv(s) && w in s.ops && EnabledFor(s, s.ops[w], Discard(true)) && k == Victim(s.ops[w])
    ensures forall item :: item in s.rows ==> k !in Referenced(s.rows[item])
    ensures forall v :: v in s.ops && v != w && Uncommitted(s.ops[v]) ==> k !in KeySet(s.ops[v].keys)
  {
    var op := s.ops[w];
    assert OpOk(s, op);
    forall v | v in s.ops && v != w && Uncommitted(s.ops[v]) ensures k !in KeySet(s.ops[v].keys) {
      assert OpOk(s, s.ops[v]);
      if op.phase.Failed? { assert k in KeySet(op.keys); }
    }
  }

  /** A key referenced before the step keeps its object. */
  lemma KeepsObject(s: State, w: nat, st: Step, item: Item, k: Key)
    requires Inv(s) && Enabled(s, w, st) && st != CommitRaises(true) && item in s.rows && k in Referenced(s.rows[item])
    ensures var s' := Next(s, w, st); k in s'.store && k in s'.content && s'.store[k] == s'.content[k]
  {
    if w in s.ops { assert OpOk(s, s.ops[w]); }
    if st.Discard? { VictimIsFree(s, w, Victim(s.ops[w])); }
  }

  lemma KeepsWhole(s: State, w: nat, st: Step)
    requires Inv(s) && Enabled(s, w, st) && st != CommitRaises(true)
    ensures Whole(Next(s, w, st))
  {
    var s' := Next(s, w, st);
    if w in s.ops { assert OpOk(s, s.ops[w]); }
    forall item, k | item in s'.rows && k in Referenced(s'.rows[item])
      ensures k in s'.store && k in s'.content && s'.store[k] == s'.content[k]
    {
      if st.Commit? && item == s.ops[w].item {
        if s.ops[w].Attach? { KeySetIs(s.ops[w].keys, k); }
      } else {
        KeepsObject(s, w, st, item, k);
      }
    }
  }

  lemma KeepsLedger(s: State, w: nat, st: Step)
    requires Inv(s) && Enabled(s, w, st) && st != CommitRaises(true)
    ensures Ledger(Next(s, w, st))
  {
    if w in s.ops { assert OpOk(s, s.ops[w]); }
  }

  lemma KeepsDisjoint(s: State, w: nat, st: Step)
    requires Inv(s) && Enabled(s, w, st) && st != CommitRaises(true)
    ensures Disjoint(Next(s, w, st))
  {
    var s' := Next(s, w, st);
    if st.StartAttach? {
      forall v | v in s.ops && Uncommitted(s.ops[v]) ensures KeySet(st.keys) !! KeySet(s.ops[v].keys) {
        assert OpOk(s, s.ops[v]);
      }
    }
  }

  lemma OtherUploadStays(s: State, w: nat, st: Step, v: nat, k: Key)
    requires Inv(s) && Enabled(s, w, st) && st != CommitRaises(true) && v in s.ops && v != w && Uncommitted(s.ops[v])
    requires k in KeySet(s.ops[v].keys) && Written(s, k)
    ensures Written(Next(s, w, st), k)
  {
    assert OpOk(s, s.ops[v]);
    if w in s.ops { assert OpOk(s, s.ops[w]); }
    if st.Discard? { VictimIsFree(s, w, Victim(s.ops[w])); }
    if st.StartAttach? { assert k in s.home; }
  }

  lemma OtherAttachStaysOk(s: State, w: nat, st: Step, v: nat)
    requires Inv(s) && Enabled(s, w, st) && st != CommitRaises(true) && v in s.ops && v != w && Uncommitted(s.ops[v])
    ensures AttachOk(Next(s, w, st), s.ops[v])
  {
    var op := s.ops[v];
    assert OpOk(s, op);
    if w in s.ops { assert OpOk(s, s.ops[w]); }
    forall k | k in KeySet(op.keys) && Written(s, k) ensures Written(Next(s, w, st), k) {
      OtherUploadStays(s, w, st, v, k);
    }
    forall i | 0 <= i < 3 ensures KeyAt(op.keys, i) in KeySet(op.keys) {}
    if st.Commit? && s.ops[w].Attach? { assert Uncommitted(s.ops[w]); }
  }

  /** What an operation relies on survives anybody else's step. */
  lemma OtherStaysOk(s: State, w: nat, st: Step, v: nat)
    requires Inv(s) && Enabled(s, w, st) && st != CommitRaises(true) && v in s.ops && v != w
    ensures OpOk(Next(s, w, st), s.ops[v])
  {
    assert OpOk(s, s.ops[v]);
    if w in s.ops { assert OpOk(s, s.ops[w]); }
    if Uncommitted(s.ops[v]) { OtherAttachStaysOk(s, w, st, v); }
  }

  lemma ActorStaysOk(s: State, w: nat, st: Step)
    requires Inv(s) && Enabled(s, w, st) && st != CommitRaises(true) && !st.Die?
    ensures OpOk(Next(s, w, st), Next(s, w, st).ops[w])
  {
    if w in s.ops {
      assert OpOk(s, s.ops[w]);
      RunningStaysOk(s, w, st);
    }
  }

  lemma PutStaysOk(s: State, w: nat)
    requires Inv(s) && w in s.ops && OpOk(s, s.ops[w]) && EnabledFor(s, s.ops[w], Put)
    ensures OpOk(NextFor(s, w, Put), NextFor(s, w, Put).ops[w])
  {
    var op := s.ops[w];
    forall i | 0 <= i < op.phase.n + 1 ensures Written(NextFor(s, w, Put), KeyAt(op.keys, i)) {
      if i < op.phase.n { assert Written(s, KeyAt(op.keys, i)); }
    }
  }

  lemma RunningStaysOk(s: State, w: nat, st: Step)
    requires Inv(s) && w in s.ops && OpOk(s, s.ops[w]) && EnabledFor(s, s.ops[w], st) && st != CommitRaises(true)
    ensures OpOk(NextFor(s, w, st), NextFor(s, w, st).ops[w])
  {
    if st.Put? {
      PutStaysOk(s, w);
    } else if st.Commit? && s.ops[w].Attach? {
      assert Referenced(s.ops[w].prev) !! KeySet(s.ops[w].keys);
    }
  }

  lemma KeepsInv(s: State, w: nat, st: Step)
    requires Inv(s) && Enabled(s, w, st) && st != CommitRaises(true)
    ensures Inv(Next(s, w, st))
  {
    KeepsWhole(s, w, st);
    KeepsLedger(s, w, st);
    KeepsDisjoint(s, w, st);
    var s' := Next(s, w, st);
    forall v | v in s'.ops ensures OpOk(s', s'.ops[v]) {
      if v != w {
        OtherStaysOk(s, w, st, v);
      } else {
        ActorStaysOk(s, w, st);
      }
    }
  }

  lemma {:induction false} RunKeeps(s: State, run: seq<Move>)
    requires Inv(s) && ValidRun(s, run)
    ensures Inv(Exec(s, run))
    decreases |run|
  {
    if run != [] {
      KeepsInv(s, run[0].w, run[0].st);
      RunKeeps(Next(s, run[0].w, run[0].st), run[1..]);
    }
  }

  /** A catalog without images and without operations. */
  predicate Init(s: State) {
    (forall item :: item in s.rows ==> s.rows[item] == None) && s.store == map[] && s.ops == map[]
    && s.home == map[] && s.content == map[] && s.published == {}
  }

  /** The database never references bytes that are missing or are not the bytes that were uploaded. */
  lemma NeverDangles(s0: State, run: seq<Move>, item: Item, k: Key)
    requires Init(s0) && ValidRun(s0, run)
    requires item in Exec(s0, run).rows && k in Referenced(Exec(s0, run).rows[item])
    ensures var s := Exec(s0, run); k in s.store && k in s.content && s.store[k] == s.content[k]
  {
    RunKeeps(s0, run);
  }

  /**
    Until its commit succeeds an operation changes no row and removes no referenced object, so a
    failed or dead attach leaves the previous image exactly as it was.
   */
  lemma OnlyCommitChanges(s: State, w: nat, st: Step, item: Item)
    requires Inv(s) && Enabled(s, w, st) && !st.Commit? && st != CommitRaises(true) && item in s.rows
    ensures item in Next(s, w, st).rows && Next(s, w, st).rows[item] == s.rows[item]
    ensures forall k :: k in Referenced(s.rows[item]) ==> k in Next(s, w, st).store && Next(s, w, st).store[k] == s.store[k]
  {
    if w in s.ops { assert OpOk(s, s.ops[w]); }
    if st.Discard? { VictimIsFree(s, w, Victim(s.ops[w])); }
    forall k | k in Referenced(s.rows[item]) ensures k in Next(s, w, st).store && Next(s, w, st).store[k] == s.store[k] {
      if st.Put? || st.PutRaises? {
        assert KeyAt(s.ops[w].keys, s.ops[w].phase.n) in KeySet(s.ops[w].keys);
      }
    }
  }

  /** What a deletion removes is an object no row references: only orphans are ever deleted. */
  lemma OnlyOrphansAreDeleted(s: State, w: nat, st: Step, k: Key)
    requires Inv(s) && Enabled(s, w, st) && st != CommitRaises(true) && k in s.store && k !in Next(s, w, st).store
    ensures forall item :: item in s.rows ==> k !in Referenced(s.rows[item])
  {
    VictimIsFree(s, w, k);
  }

  /**
    The one assumption is needed: if a commit raises although it was applied, cleaning up the
    written objects leaves a row that references a missing object, in every such state.
   */
  lemma AppliedButRaisedCommitDangles(s: State, w: nat)
    requires Inv(s) && w in s.ops && s.ops[w].Attach? && s.ops[w].phase == Staged
    ensures Enabled(s, w, CommitRaises(true))
    ensures var s1 := Next(s, w, CommitRaises(true));
            && Enabled(s1, w, Discard(true))
            && !Whole(Next(s1, w, Discard(true)))
  {
    var op := s.ops[w];
    assert OpOk(s, op);
    var s1 := Next(s, w, CommitRaises(true));
    var s2 := Next(s1, w, Discard(true));
    assert s2.rows[op.item] == Some(op.keys) && op.keys.primary in Referenced(s2.rows[op.item]);
    assert op.keys.primary !in s2.store;
  }
}
