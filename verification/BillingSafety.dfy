/** What no interleaving of plan edits, retirements, assignments and cancellations can do. */
module BillingSafety {
  import opened Billing

  // ---- The invariant --------------------------------------------------------------------------

  ghost predicate Exclusive(s: State) {
    forall t, u, p :: t in s.txs && u in s.txs && Holds(s.txs[t], p) && Holds(s.txs[u], p) ==> t == u
  }

  /** What a transaction found out under its lock is still so. */
  ghost predicate StillSo(s: State, x: Tx) {
    Locks(x.op) && Holds(x, x.op.plan) ==>
      && x.op.plan in s.plans
      && (x.op.Assign? ==> s.plans[x.op.plan].active)
      && (!x.op.Assign? && x.stage != Locked ==> s.plans[x.op.plan].terms.preset == "")
      && (Edits(x.op) && x.stage.Ready? ==> !Sold(s.subs, x.op.plan))
  }

  /** What a transaction cancels belongs to its own organisation. */
  predicate CancelsOwn(s: State, x: Tx) {
    x.stage.Ready? ==>
      if x.op.Assign? || x.op.Cancel? then forall i :: i in x.stage.cancels ==> i < |s.subs| && s.subs[i].org == x.op.org
      else x.stage.cancels == {}
  }

  predicate OneActive(subs: seq<Sub>) {
    forall i, j :: 0 <= i < j < |subs| && subs[i].active && subs[j].active ==> subs[i].org != subs[j].org
  }

  ghost predicate Inv(s: State) {
    && Exclusive(s) && OneActive(s.subs)
    && (forall t :: t in s.txs ==> StillSo(s, s.txs[t]) && CancelsOwn(s, s.txs[t]))
    && (forall i :: 0 <= i < |s.subs| ==> s.subs[i].plan in s.plans)
  }

  lemma MoveKeeps(s: State, t: TxId, stage: Stage)
    requires Inv(s) && t in s.txs && StillSo(s, s.txs[t].(stage := stage)) && CancelsOwn(s, s.txs[t].(stage := stage))
    requires forall p :: Holds(s.txs[t].(stage := stage), p) ==> Holds(s.txs[t], p) || Free(s, p)
    ensures Inv(Moved(s, t, stage))
  {}

  lemma EditKeeps(s: State, t: TxId)
    requires Inv(s) && Enabled(s, Commit(t)) && Locks(s.txs[t].op) && !s.txs[t].op.Assign?
    ensures Inv(Next(s, Commit(t)))
  {
    var x := s.txs[t];
    assert Holds(x, x.op.plan);
    var s' := Next(s, Commit(t));
    forall u | u in s'.txs ensures StillSo(s', s'.txs[u]) && CancelsOwn(s', s'.txs[u]) {
      assert StillSo(s, s.txs[u]) && CancelsOwn(s, s.txs[u]);
      assert !Holds(s.txs[u], x.op.plan);
    }
  }

  lemma SubsKeep(s: State, t: TxId, cancels: set<nat>)
    requires Inv(s)
    ensures |Cancelled(s.subs, cancels)| == |s.subs|
    ensures forall p :: Sold(Cancelled(s.subs, cancels), p) <==> Sold(s.subs, p)
    ensures OneActive(Cancelled(s.subs, cancels))
  {
    var c := Cancelled(s.subs, cancels);
    forall p ensures Sold(c, p) <==> Sold(s.subs, p) {
      if Sold(s.subs, p) {
        var i :| 0 <= i < |s.subs| && s.subs[i].plan == p;
        assert c[i].plan == p;
      }
    }
  }

  lemma NoneLeftActive(subs: seq<Sub>, org: Org, cancels: set<nat>)
    requires !OthersActive(subs, org, cancels)
    ensures forall i :: 0 <= i < |subs| && Cancelled(subs, cancels)[i].org == org ==> !Cancelled(subs, cancels)[i].active
  {
    forall i | 0 <= i < |subs| && subs[i].org == org && subs[i].active ensures i in cancels {
      assert ActiveOf(subs, org, i);
    }
  }

  lemma SubCommitKeeps(s: State, t: TxId)
    requires Inv(s) && Enabled(s, Commit(t)) && (s.txs[t].op.Assign? || s.txs[t].op.Cancel?)
    ensures Inv(Next(s, Commit(t)))
  {
    var (x, s') := (s.txs[t], Next(s, Commit(t)));
    SubsKeep(s, t, x.stage.cancels);
    var c := Cancelled(s.subs, x.stage.cancels);
    if x.op.Assign? {
      assert Holds(x, x.op.plan) && StillSo(s, x);
      NoneLeftActive(s.subs, x.op.org, x.stage.cancels);
    }
    forall u | u in s'.txs ensures StillSo(s', s'.txs[u]) && CancelsOwn(s', s'.txs[u]) {
      assert StillSo(s, s.txs[u]) && CancelsOwn(s, s.txs[u]);
      if Locks(x.op) { assert !Holds(s.txs[u], x.op.plan); }
      if Locks(s.txs[u].op) { SoldAfter(c, x.op, s.txs[u].op.plan); }
    }
  }

  lemma SoldAfter(c: seq<Sub>, op: Op, p: PlanId)
    ensures op.Assign? ==> (Sold(c + [Sub(op.org, op.plan, true)], p) <==> Sold(c, p) || op.plan == p)
  {
    if op.Assign? {
      var d := c + [Sub(op.org, op.plan, true)];
      assert d[|c|].plan == op.plan;
      if Sold(c, p) {
        var i :| 0 <= i < |c| && c[i].plan == p;
        assert d[i].plan == p;
      }
    }
  }

  lemma KeepsInv(s: State, a: Step)
    requires Inv(s) && Enabled(s, a)
    ensures Inv(Next(s, a))
  {
    match a
    case Create(_, _) =>
    case Begin(_, _) =>
    case Lock(t) => MoveKeeps(s, t, AfterLock(s, s.txs[t].op));
    case CheckKey(t) => MoveKeeps(s, t, AfterCheckKey(s, s.txs[t].op));
    case CheckSold(t) => MoveKeeps(s, t, AfterCheckSold(s, s.txs[t].op));
    case Write(t, cancels) => MoveKeeps(s, t, Ready(cancels));
    case Commit(t) =>
      if s.txs[t].op.Assign? || s.txs[t].op.Cancel? { SubCommitKeeps(s, t); } else { EditKeeps(s, t); }
    case Rollback(_) =>
  }

  // ---- Runs -----------------------------------------------------------------------------------

  datatype Run = Run(states: seq<State>, steps: seq<Step>)

  ghost predicate ValidRun(run: Run) {
    && |run.states| == |run.steps| + 1 && Inv(run.states[0])
    && forall i :: 0 <= i < |run.steps| ==>
         Enabled(run.states[i], run.steps[i]) && run.states[i + 1] == Next(run.states[i], run.steps[i])
  }

  lemma {:induction false} RunKeepsInv(run: Run, j: nat)
    requires ValidRun(run) && j < |run.states|
    ensures Inv(run.states[j])
    decreases j
  {
    if j > 0 {
      RunKeepsInv(run, j - 1);
      KeepsInv(run.states[j - 1], run.steps[j - 1]);
    }
  }

  lemma StepKeepsSold(s: State, a: Step, p: PlanId)
    requires Inv(s) && Enabled(s, a) && Sold(s.subs, p)
    ensures p in s.plans && p in Next(s, a).plans && Sold(Next(s, a).subs, p)
    ensures Next(s, a).plans[p].terms == s.plans[p].terms
  {
    if a.Commit? {
      var x := s.txs[a.t];
      SubsKeep(s, a.t, x.stage.cancels);
      SoldAfter(Cancelled(s.subs, x.stage.cancels), x.op, p);
      assert StillSo(s, x);
    }
  }

  /** Once a subscription to a plan commits, the plan's terms are the same for ever, and it stays sold. */
  lemma {:induction false} SoldTermsNeverChange(run: Run, i: nat, j: nat, p: PlanId)
    requires ValidRun(run) && i <= j < |run.states| && Sold(run.states[i].subs, p)
    ensures p in run.states[i].plans && p in run.states[j].plans && Sold(run.states[j].subs, p)
    ensures run.states[j].plans[p].terms == run.states[i].plans[p].terms
    decreases j
  {
    RunKeepsInv(run, i);
    if i < j {
      SoldTermsNeverChange(run, i, j - 1, p);
      RunKeepsInv(run, j - 1);
      StepKeepsSold(run.states[j - 1], run.steps[j - 1], p);
    } else {
      var k :| 0 <= k < |run.states[i].subs| && run.states[i].subs[k].plan == p;
    }
  }

  /** A subscription is inserted only by the commit of its assignment, with its plan active then. */
  lemma InsertedWhileActive(run: Run, i: nat)
    requires ValidRun(run) && i < |run.steps| && |run.states[i + 1].subs| > |run.states[i].subs|
    ensures var (s, s', a) := (run.states[i], run.states[i + 1], run.steps[i]);
            && a.Commit? && a.t in s.txs && s.txs[a.t].op.Assign?
            && var op := s.txs[a.t].op;
               && s'.subs[|s.subs|] == Sub(op.org, op.plan, true) && |s'.subs| == |s.subs| + 1
               && op.plan in s.plans && s.plans[op.plan].active && s'.plans == s.plans
  {
    RunKeepsInv(run, i);
    var (s, a) := (run.states[i], run.steps[i]);
    assert run.states[i + 1] == Next(s, a);
    if a.Commit? { assert StillSo(s, s.txs[a.t]); }
  }

  /** A refused or abandoned call, at whatever point, has changed neither plans nor subscriptions. */
  lemma OnlyCommitsChange(s: State, a: Step)
    requires Enabled(s, a) && !a.Commit? && !a.Create?
    ensures Next(s, a).plans == s.plans && Next(s, a).subs == s.subs
  {}

  /** A refused transaction can only be given up: it never commits. */
  lemma {:induction false} RefusedNeverCommits(run: Run, i: nat, j: nat, t: TxId)
    requires ValidRun(run) && i <= j < |run.steps| && t in run.states[i].txs && run.states[i].txs[t].stage.Refused?
    requires forall k :: i <= k < j ==> run.steps[k] != Rollback(t)
    ensures t in run.states[j].txs && run.states[j].txs[t] == run.states[i].txs[t] && run.steps[j] != Commit(t)
    decreases j
  {
    if i < j {
      RefusedNeverCommits(run, i, j - 1, t);
      assert run.states[j] == Next(run.states[j - 1], run.steps[j - 1]);
      assert run.steps[j - 1] != Rollback(t);
    }
    assert Enabled(run.states[j], run.steps[j]);
  }

  predicate OwnCommit(s: State, a: Step, org: Org) {
    a.Commit? && a.t in s.txs && (s.txs[a.t].op.Assign? || s.txs[a.t].op.Cancel?) && s.txs[a.t].op.org == org
  }

  lemma StepLeavesOrg(s: State, a: Step, org: Org, n: nat)
    requires Inv(s) && Enabled(s, a) && !OwnCommit(s, a, org)
    ensures |s.subs| <= |Next(s, a).subs| && (ActiveOf(Next(s, a).subs, org, n) <==> ActiveOf(s.subs, org, n))
    ensures ActiveOf(s.subs, org, n) ==> Next(s, a).subs[n] == s.subs[n]
  {
    if a.Commit? { assert CancelsOwn(s, s.txs[a.t]); }
  }

  /**
    Between two commits of an organisation's own assignments and cancellations its active
    subscription is the same one on the same plan, whatever else is refused, rolled back or committed.
   */
  lemma {:induction false} ActiveUntilOwnCommit(run: Run, i: nat, j: nat, org: Org, n: nat)
    requires ValidRun(run) && i <= j < |run.states|
    requires forall k :: i <= k < j ==> !OwnCommit(run.states[k], run.steps[k], org)
    ensures ActiveOf(run.states[j].subs, org, n) <==> ActiveOf(run.states[i].subs, org, n)
    ensures ActiveOf(run.states[i].subs, org, n) ==> run.states[j].subs[n] == run.states[i].subs[n]
    decreases j
  {
    if i < j {
      ActiveUntilOwnCommit(run, i, j - 1, org, n);
      RunKeepsInv(run, j - 1);
      StepLeavesOrg(run.states[j - 1], run.steps[j - 1], org, n);
    }
  }

  /** A committed assignment leaves exactly its own subscription active for the organisation. */
  lemma AssignedIsTheOneActive(s: State, t: TxId)
    requires Inv(s) && Enabled(s, Commit(t)) && s.txs[t].op.Assign?
    ensures var (s', op) := (Next(s, Commit(t)), s.txs[t].op);
            forall i :: 0 <= i < |s'.subs| ==> (ActiveOf(s'.subs, op.org, i) <==> i == |s.subs|)
  {
    KeepsInv(s, Commit(t));
    var (s', op) := (Next(s, Commit(t)), s.txs[t].op);
    assert s'.subs[|s.subs|] == Sub(op.org, op.plan, true);
  }

  /** A canonical preset is changed by no operation, its active flag included. */
  lemma {:induction false} PresetsNeverChange(run: Run, i: nat, j: nat, p: PlanId)
    requires ValidRun(run) && i <= j < |run.states| && p in run.states[i].plans && run.states[i].plans[p].terms.preset != ""
    ensures p in run.states[j].plans && run.states[j].plans[p] == run.states[i].plans[p]
    decreases j
  {
    if i < j {
      PresetsNeverChange(run, i, j - 1, p);
      RunKeepsInv(run, j - 1);
      var (s, a) := (run.states[j - 1], run.steps[j - 1]);
      if a.Commit? { assert StillSo(s, s.txs[a.t]); }
    }
  }

  /**
    Creation refuses a canonical identity; an update of an unsold plan does not, and a plan given
    one refuses every later edit, retirement included.
   */
  lemma UpdateMayCanonise(s: State, p: PlanId, terms: Terms, active: bool, later: Op)
    requires p in s.plans && s.plans[p].terms.preset == "" && terms.preset != ""
    requires (Edits(later) || later.SetActive?) && later.plan == p
    ensures AnswerTo(s, Update(p, terms, active)) == Done <==> !Sold(s.subs, p)
    ensures !Sold(s.subs, p) ==> AnswerTo(Performed(s, Update(p, terms, active)), later) == CanonicalPreset
  {
    assert AnswerTo(s, Update(p, terms, active)) == if Sold(s.subs, p) then SoldPlan else Done;
  }

  // ---- Alone ----------------------------------------------------------------------------------

  ghost predicate Reaches(s: State, s': State) {
    exists run: Run :: ValidRun(run) && run.states[0] == s && run.states[|run.states| - 1] == s'
  }

  lemma ReachesItself(s: State)
    requires Inv(s)
    ensures Reaches(s, s)
  {
    var run := Run([s], []);
    assert ValidRun(run) && run.states[0] == s && run.states[|run.states| - 1] == s;
  }

  lemma ReachesNext(s: State, m: State, a: Step)
    requires Reaches(s, m) && Enabled(m, a)
    ensures Reaches(s, Next(m, a))
  {
    var run: Run :| ValidRun(run) && run.states[0] == s && run.states[|run.states| - 1] == m;
    var more := Run(run.states + [Next(m, a)], run.steps + [a]);
    assert ValidRun(more) && more.states[0] == s && more.states[|more.states| - 1] == Next(m, a);
  }

  lemma SubsAlone(s: State, op: Op)
    requires Inv(s) && s.txs == map[] && (op.Assign? || op.Cancel?) && AnswerTo(s, op) == Done
    ensures Reaches(s, Performed(s, op))
  {
    var cancels := AllActive(s.subs, op.org);
    ReachesItself(s);
    ReachesNext(s, s, Begin(0, op));
    var m := Next(s, Begin(0, op));
    if op.Assign? {
      ReachesNext(s, m, Lock(0));
      m := Next(m, Lock(0));
    }
    ReachesNext(s, m, Write(0, cancels));
    m := Next(m, Write(0, cancels));
    ReachesNext(s, m, Commit(0));
    assert Next(m, Commit(0)) == Performed(s, op);
  }

  lemma EditAlone(s: State, op: Op)
    requires Inv(s) && s.txs == map[] && !op.Assign? && !op.Cancel? && AnswerTo(s, op) == Done
    ensures Reaches(s, Performed(s, op))
  {
    ReachesItself(s);
    ReachesNext(s, s, Begin(0, op));
    var m := Next(s, Begin(0, op));
    ReachesNext(s, m, Lock(0));
    m := Next(m, Lock(0));
    ReachesNext(s, m, CheckKey(0));
    m := Next(m, CheckKey(0));
    var last := if Edits(op) then CheckSold(0) else Write(0, {});
    ReachesNext(s, m, last);
    m := Next(m, last);
    ReachesNext(s, m, Commit(0));
    assert Next(m, Commit(0)) == Performed(s, op);
  }

  /** The service's methods, run one at a time, are runs of the interleaved system. */
  lemma AloneIsARun(s: State, op: Op)
    requires Inv(s) && s.txs == map[]
    ensures Reaches(s, Performed(s, op))
  {
    if AnswerTo(s, op) != Done {
      ReachesItself(s);
    } else if op.Assign? || op.Cancel? {
      SubsAlone(s, op);
    } else {
      EditAlone(s, op);
    }
  }
}
