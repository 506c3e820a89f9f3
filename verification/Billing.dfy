/**
  Plans and subscriptions.  Every commercial change is a transaction that locks its plan row first
  and then decides; transactions interleave statement by statement.
 */
module Billing {
  type PlanId = nat
  type TxId = nat
  type Org = string

  /** What a subscriber bought.  `preset` is the canonical identity in `config`, empty when there is none. */
  datatype Terms = Terms(
    name: string,
    price: int,
    description: string,
    features: seq<string>,
    maxManagers: int,
    maxStaff: int,
    config: string,
    preset: string)

  datatype Plan = Plan(terms: Terms, active: bool)

  datatype Sub = Sub(org: Org, plan: PlanId, active: bool)

  datatype Op =
    | Update(plan: PlanId, terms: Terms, active: bool)
    | Restructure(plan: PlanId, terms: Terms)
    | SetActive(plan: PlanId, active: bool)
    | Assign(org: Org, plan: PlanId)
    | Cancel(org: Org)

  datatype Answer = Missing | CanonicalPreset | SoldPlan | NotAssignable | Done

  /** How far a transaction has come; `Ready` has made its writes, and `cancels` are among them. */
  datatype Stage = Begun | Locked | KeyChecked | Ready(cancels: set<nat>) | Refused(answer: Answer)

  datatype Tx = Tx(op: Op, stage: Stage)

  /** The committed tables, and the transactions in flight. */
  datatype State = State(plans: map<PlanId, Plan>, subs: seq<Sub>, txs: map<TxId, Tx>)

  predicate Locks(op: Op) { !op.Cancel? }

  predicate Holds(x: Tx, p: PlanId) {
    Locks(x.op) && x.op.plan == p && (x.stage == Locked || x.stage == KeyChecked || x.stage.Ready?)
  }

  predicate Sold(subs: seq<Sub>, p: PlanId) { exists i :: 0 <= i < |subs| && subs[i].plan == p }

  predicate Free(s: State, p: PlanId) { forall t :: t in s.txs ==> !Holds(s.txs[t], p) }

  predicate ActiveOf(subs: seq<Sub>, org: Org, i: nat) { i < |subs| && subs[i].org == org && subs[i].active }

  /** The rows a cancelling statement may have seen: some of the organisation's active ones. */
  predicate MayCancel(subs: seq<Sub>, org: Org, cancels: set<nat>) { forall i :: i in cancels ==> ActiveOf(subs, org, i) }

  /** The unique index on active subscriptions. */
  predicate OthersActive(subs: seq<Sub>, org: Org, cancels: set<nat>) {
    exists i :: 0 <= i < |subs| && ActiveOf(subs, org, i) && i !in cancels
  }

  // ---- Writes ---------------------------------------------------------------------------------

  function Cancelled(subs: seq<Sub>, cancels: set<nat>): seq<Sub> {
    seq(|subs|, i requires 0 <= i < |subs| => if i in cancels then subs[i].(active := false) else subs[i])
  }

  /** A structured edit always empties the legacy features. */
  function Written(plan: Plan, op: Op): Plan {
    match op
    case Update(_, terms, active) => Plan(terms, active)
    case Restructure(_, terms) => Plan(terms.(features := []), plan.active)
    case SetActive(_, active) => plan.(active := active)
    case _ => plan
  }

  function Committed(s: State, op: Op, cancels: set<nat>): State {
    match op
    case Assign(org, p) => s.(subs := Cancelled(s.subs, cancels) + [Sub(org, p, true)])
    case Cancel(_) => s.(subs := Cancelled(s.subs, cancels))
    case _ => if op.plan in s.plans then s.(plans := s.plans[op.plan := Written(s.plans[op.plan], op)]) else s
  }

  // ---- Steps ----------------------------------------------------------------------------------

  datatype Step =
    | Create(id: PlanId, plan: Plan)
    | Begin(t: TxId, op: Op)
    | Lock(t: TxId)
    | CheckKey(t: TxId)
    | CheckSold(t: TxId)
    | Write(t: TxId, cancels: set<nat>)
    | Commit(t: TxId)
    | Rollback(t: TxId)

  predicate At(s: State, t: TxId, stage: Stage) { t in s.txs && s.txs[t].stage == stage }

  predicate Edits(op: Op) { op.Update? || op.Restructure? }

  predicate Enabled(s: State, a: Step) {
    match a
    case Create(id, plan) => id !in s.plans && plan.terms.preset == ""
    case Begin(t, _) => t !in s.txs
    case Lock(t) => At(s, t, Begun) && Locks(s.txs[t].op) && Free(s, s.txs[t].op.plan)
    case CheckKey(t) => At(s, t, Locked) && (Edits(s.txs[t].op) || s.txs[t].op.SetActive?)
    case CheckSold(t) => At(s, t, KeyChecked) && Edits(s.txs[t].op)
    case Write(t, cancels) =>
      t in s.txs && (
        match s.txs[t].op
        case SetActive(_, _) => s.txs[t].stage == KeyChecked && cancels == {}
        case Assign(org, _) => s.txs[t].stage == Locked && MayCancel(s.subs, org, cancels)
        case Cancel(org) => s.txs[t].stage == Begun && MayCancel(s.subs, org, cancels)
        case _ => false)
    case Commit(t) =>
      && t in s.txs && s.txs[t].stage.Ready?
      && (s.txs[t].op.Assign? ==> !OthersActive(s.subs, s.txs[t].op.org, s.txs[t].stage.cancels))
    case Rollback(t) => t in s.txs
  }

  function Moved(s: State, t: TxId, stage: Stage): State
    requires t in s.txs
  {
    s.(txs := s.txs[t := s.txs[t].(stage := stage)])
  }

  /** A missing plan, and a retired one for an assignment, are found out with the lock. */
  function AfterLock(s: State, op: Op): Stage
    requires Locks(op)
  {
    if op.plan !in s.plans then Refused(if op.Assign? then NotAssignable else Missing)
    else if op.Assign? && !s.plans[op.plan].active then Refused(NotAssignable)
    else Locked
  }

  function AfterCheckKey(s: State, op: Op): Stage
    requires Locks(op)
  {
    if op.plan in s.plans && s.plans[op.plan].terms.preset != "" then Refused(CanonicalPreset) else KeyChecked
  }

  function AfterCheckSold(s: State, op: Op): Stage
    requires Locks(op)
  {
    if Sold(s.subs, op.plan) then Refused(SoldPlan) else Ready({})
  }

  function Next(s: State, a: Step): State
    requires Enabled(s, a)
  {
    match a
    case Create(id, plan) => s.(plans := s.plans[id := plan])
    case Begin(t, op) => s.(txs := s.txs[t := Tx(op, Begun)])
    case Lock(t) => Moved(s, t, AfterLock(s, s.txs[t].op))
    case CheckKey(t) => Moved(s, t, AfterCheckKey(s, s.txs[t].op))
    case CheckSold(t) => Moved(s, t, AfterCheckSold(s, s.txs[t].op))
    case Write(t, cancels) => Moved(s, t, Ready(cancels))
    case Commit(t) => Committed(s, s.txs[t].op, s.txs[t].stage.cancels).(txs := s.txs - {t})
    case Rollback(t) => s.(txs := s.txs - {t})
  }

  // ---- One caller at a time -------------------------------------------------------------------

  function AllActive(subs: seq<Sub>, org: Org): set<nat> { set i | 0 <= i < |subs| && ActiveOf(subs, org, i) }

  /** What a call answers when nothing runs beside it. */
  function AnswerTo(s: State, op: Op): Answer {
    if op.Cancel? then Done
    else if AfterLock(s, op).Refused? then AfterLock(s, op).answer
    else if op.Assign? then Done
    else if AfterCheckKey(s, op).Refused? then CanonicalPreset
    else if Edits(op) && Sold(s.subs, op.plan) then SoldPlan
    else Done
  }

  function Performed(s: State, op: Op): State {
    if AnswerTo(s, op) != Done then s
    else Committed(s, op, if op.Assign? || op.Cancel? then AllActive(s.subs, op.org) else {})
  }

  class Service {
    var plans: map<PlanId, Plan>
    var subs: seq<Sub>

    function Now(): State
      reads this
    {
      State(plans, subs, map[])
    }

    constructor ()
      ensures Now() == State(map[], [], map[])
    {
      plans, subs := map[], [];
    }

    method UpdatePlan(id: PlanId, terms: Terms, active: bool) returns (answer: Answer)
      modifies this
      ensures answer == AnswerTo(old(Now()), Update(id, terms, active))
      ensures Now() == Performed(old(Now()), Update(id, terms, active))
      ensures answer == (if id !in old(plans) then Missing
                         else if old(plans)[id].terms.preset != "" then CanonicalPreset
                         else if exists i :: 0 <= i < |subs| && subs[i].plan == id then SoldPlan else Done)
      ensures subs == old(subs) && plans == if answer == Done then old(plans)[id := Plan(terms, active)] else old(plans)
    {
      if id !in plans { return Missing; }
      if plans[id].terms.preset != "" { return CanonicalPreset; }
      if Sold(subs, id) { return SoldPlan; }
      plans := plans[id := Plan(terms, active)];
      return Done;
    }

    method UpdatePlanStructured(id: PlanId, terms: Terms) returns (answer: Answer)
      modifies this
      ensures answer == AnswerTo(old(Now()), Restructure(id, terms))
      ensures Now() == Performed(old(Now()), Restructure(id, terms))
      ensures answer == (if id !in old(plans) then Missing
                         else if old(plans)[id].terms.preset != "" then CanonicalPreset
                         else if exists i :: 0 <= i < |subs| && subs[i].plan == id then SoldPlan else Done)
      ensures subs == old(subs) && plans ==
                if answer == Done then old(plans)[id := Plan(terms.(features := []), old(plans)[id].active)] else old(plans)
    {
      if id !in plans { return Missing; }
      if plans[id].terms.preset != "" { return CanonicalPreset; }
      if Sold(subs, id) { return SoldPlan; }
      plans := plans[id := Plan(terms.(features := []), plans[id].active)];
      return Done;
    }

    method SetPlanActive(id: PlanId, active: bool) returns (answer: Answer)
      modifies this
      ensures answer == AnswerTo(old(Now()), SetActive(id, active))
      ensures Now() == Performed(old(Now()), SetActive(id, active))
      ensures answer == (if id !in old(plans) then Missing else if old(plans)[id].terms.preset != "" then CanonicalPreset else Done)
      ensures subs == old(subs) && plans ==
                if answer == Done then old(plans)[id := Plan(old(plans)[id].terms, active)] else old(plans)
    {
      if id !in plans { return Missing; }
      if plans[id].terms.preset != "" { return CanonicalPreset; }
      plans := plans[id := plans[id].(active := active)];
      return Done;
    }

    /** `cancel_subscription`, and the first half of an assignment. */
    method CancelSubscription(org: Org)
      modifies this`subs
      ensures Now() == Performed(old(Now()), Cancel(org))
      ensures |subs| == |old(subs)|
      ensures forall i :: 0 <= i < |subs| ==>
                subs[i] == Sub(old(subs)[i].org, old(subs)[i].plan, old(subs)[i].active && old(subs)[i].org != org)
    {
      var was := subs;
      subs := seq(|was|, i requires 0 <= i < |was| =>
        if was[i].org == org && was[i].active then was[i].(active := false) else was[i]);
      assert subs == Cancelled(was, AllActive(was, org));
    }

    /** `assign_subscription`: the target is verified before anything is cancelled. */
    method AssignSubscription(org: Org, id: PlanId) returns (answer: Answer)
      modifies this`subs
      ensures answer == AnswerTo(old(Now()), Assign(org, id))
      ensures Now() == Performed(old(Now()), Assign(org, id))
      ensures answer == if id in plans && plans[id].active then Done else NotAssignable
      ensures answer != Done ==> subs == old(subs)
      ensures answer == Done ==>
                && |subs| == |old(subs)| + 1 && subs[|old(subs)|] == Sub(org, id, true)
                && forall i :: 0 <= i < |old(subs)| ==>
                     subs[i] == Sub(old(subs)[i].org, old(subs)[i].plan, old(subs)[i].active && old(subs)[i].org != org)
    {
      if id !in plans { return NotAssignable; }
      if !plans[id].active { return NotAssignable; }
      CancelSubscription(org);
      subs := subs + [Sub(org, id, true)];
      return Done;
    }
  }
}
