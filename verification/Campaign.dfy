/**
  One campaign's fan-out: recipients materialised once, sent in throttled batches, and halted on
  bad signals.  A batch may be cut short at any point; batches do not overlap.
 */
module Campaign {
  import opened Wrappers

  type Contact = nat
  type Time = int

  const HOUR: Time := 3_600
  const HOURLY_RATE: nat := 500
  const OPTOUT_HALT_MIN: nat := 10
  const SKIP_CODES: set<string> := {"suppressed_contact", "consent_missing"}

  datatype Delivery = Queued | Sent | Failed | Skipped

  /** A row of `campaign_sends`. */
  datatype Send = Send(contact: Contact, status: Delivery, reason: Option<string>, sentAt: Option<Time>)

  datatype Phase = Draft | Scheduled | PendingApproval | Executing | Executed | Halted(why: string) | Rejected

  datatype Counts = Counts(sent: nat, failed: nat)

  datatype Batch = Batch(start: Time, todo: seq<nat>)

  datatype State = State(
    phase: Phase,
    rows: seq<Send>,                // in creation order
    clock: Time,
    batch: Option<Batch>,           // the rows a running batch still has to send
    announced: seq<Counts>)

  // ---- Counting -------------------------------------------------------------------------------

  function Count(rows: seq<Send>, p: Send -> bool): nat {
    if rows == [] then 0
    else Count(rows[..|rows| - 1], p) + if p(rows[|rows| - 1]) then 1 else 0
  }

  function Is(d: Delivery): Send -> bool { (r: Send) => r.status == d }

  function SentSince(t: Time): Send -> bool { (r: Send) => r.sentAt.Some? && r.sentAt.value > t }

  function OptedOut(contacts: set<Contact>): Send -> bool { (r: Send) => r.status == Sent && r.contact in contacts }

  /** The queued rows, oldest first. */
  function Queue(rows: seq<Send>): seq<nat> {
    if rows == [] then []
    else
      var n := |rows| - 1;
      Queue(rows[..n]) + if rows[n].status == Queued then [n] else []
  }

  /** `_hourly_budget` */
  function Budget(rows: seq<Send>, now: Time): nat {
    var recent := Count(rows, SentSince(now - HOUR));
    if recent >= HOURLY_RATE then 0 else HOURLY_RATE - recent
  }

  function Picks(rows: seq<Send>, now: Time): seq<nat> {
    Queue(rows)[..Min(Budget(rows, now), |Queue(rows)|)]
  }

  // ---- Gates ----------------------------------------------------------------------------------

  datatype Gate = Gate(entitled: bool, optedOut: set<Contact>, rating: string, channel: bool)

  /** `_halt_reason`: more than a tenth of at least ten recipients have opted out, and so on. */
  function HaltReason(rows: seq<Send>, gate: Gate): Option<string> {
    var (sent, out) := (Count(rows, Is(Sent)), Count(rows, OptedOut(gate.optedOut)));
    if !gate.entitled then Some("entitlement_revoked")
    else if sent >= OPTOUT_HALT_MIN && 10 * out > sent then Some("opt-out spike")
    else if gate.rating in {"red", "low"} then Some("WhatsApp quality rating")
    else None
  }

  /** What `send` does with one recipient; `Raised` is any exception but a refusal. */
  datatype Outcome = Delivered | NotSent | Refused(code: string) | Raised

  /** The row after one `_send_one`; an exception rolls its transaction back. */
  function Answered(r: Send, o: Outcome, now: Time): Send {
    match o
    case Delivered => Send(r.contact, Sent, None, Some(now))
    case NotSent => Send(r.contact, Failed, Some("not_sent"), r.sentAt)
    case Refused(code) => Send(r.contact, if code in SKIP_CODES then Skipped else Failed, Some(code), r.sentAt)
    case Raised => r
  }

  predicate Has(rows: seq<Send>, c: Contact) { exists i :: 0 <= i < |rows| && rows[i].contact == c }

  /** The inserts of a set-up, conflicts ignored. */
  function Materialised(rows: seq<Send>, audience: seq<Contact>): seq<Send> {
    if audience == [] then rows
    else
      var (before, c) := (Materialised(rows, audience[..|audience| - 1]), audience[|audience| - 1]);
      if Has(before, c) then before else before + [Send(c, Queued, None, None)]
  }

  // ---- Steps ----------------------------------------------------------------------------------

  datatype Step =
    | Tick(now: Time)
    | Request                        // a send is requested: an approval is parked
    | Setup(audience: seq<Contact>)
    | Reject
    | Begin(gate: Gate)
    | SendNext(outcome: Outcome)
    | End
    | Crash

  predicate Enabled(s: State, a: Step) {
    match a
    case Tick(now) => now >= s.clock
    case Request => s.phase in {Draft, Scheduled}
    case Begin(_) => s.batch.None?
    case SendNext(_) => s.batch.Some? && s.batch.value.todo != [] && s.batch.value.todo[0] < |s.rows|
    case End => s.batch.Some? && s.batch.value.todo == []
    case _ => true
  }

  function AfterBegin(s: State, gate: Gate): State {
    var halt := HaltReason(s.rows, gate);
    if halt.Some? then s.(phase := Halted(halt.value))
    else if s.phase != Executing then s
    else if !gate.channel then s.(phase := Halted("no active WhatsApp channel"))
    else s.(batch := Some(Batch(s.clock, Picks(s.rows, s.clock))))
  }

  /** The count that closes a batch: with nothing queued the campaign is executed and announced. */
  function Closed(s: State): State {
    if Count(s.rows, Is(Queued)) > 0 then s
    else s.(phase := Executed, announced := s.announced + [Counts(Count(s.rows, Is(Sent)), Count(s.rows, Is(Failed)))])
  }

  function Next(s: State, a: Step): State
    requires Enabled(s, a)
  {
    match a
    case Tick(now) => s.(clock := now)
    case Request => s.(phase := PendingApproval)
    case Setup(audience) =>
      if s.phase in {PendingApproval, Executing} then s.(rows := Materialised(s.rows, audience), phase := Executing) else s
    case Reject => if s.phase in {PendingApproval, Draft, Scheduled} then s.(phase := Rejected) else s
    case Begin(gate) => AfterBegin(s, gate)
    case SendNext(outcome) =>
      var (b, i) := (s.batch.value, s.batch.value.todo[0]);
      s.(rows := s.rows[i := Answered(s.rows[i], outcome, s.clock)],
         batch := if outcome.Raised? then None else Some(b.(todo := b.todo[1..])))
    case End => Closed(s).(batch := None)
    case Crash => s.(batch := None)
  }

  predicate Runs(s: State, steps: seq<Step>)
    decreases |steps|, 0
  {
    steps == [] || (
      var (init, a) := (steps[..|steps| - 1], steps[|steps| - 1]);
      Runs(s, init) && Enabled(Exec(s, init), a))
  }

  function Exec(s: State, steps: seq<Step>): State
    requires Runs(s, steps)
    decreases |steps|, 1
  {
    if steps == [] then s else Next(Exec(s, steps[..|steps| - 1]), steps[|steps| - 1])
  }

  function Initial(now: Time): State { State(Draft, [], now, None, []) }
}
