/**
 Dispute resolution (apps/disputes) over the payment's refund ledger: admins run `resolve_dispute` through claim,
 refund and finish while the parties respond, escalate and close, the overdue sweep writes what it saw earlier, and
 every other user of the ledger carries on. One dispute, whose refunds all use the key `dispute-refund-{id}`.
 */
module Disputes {
  import opened Results
  import L = RefundLedger

  datatype Status = OPEN | RESPONDENT_REPLIED | ESCALATED | RESOLVING | RESOLVED | CLOSED

  datatype Outcome = FULL_REFUND | PARTIAL_REFUND | REPLACEMENT | REJECTED | WITHDRAWN

  datatype Dispute = Dispute(status: Status, outcome: Option<Outcome>, amount: Option<nat>, payoutHeld: bool)

  /** Where a caller of `resolve_dispute` stands; `mine` when it made the claim. */
  datatype Pc =
    | ToRefund(outcome: Outcome, amount: nat, mine: bool)
    | Refunding(outcome: Outcome, amount: nat, mine: bool)
    | ToFinish(outcome: Outcome, refund: Option<nat>)
    | Failed(mine: bool)
    | Succeeded
    | Raised

  /**
   `records` are the DisputeRefund rows by refund id, `byHand` those an admin recorded for a refund issued elsewhere;
   `sweepSaw` is an overdue sweep that read the dispute as OPEN.
   */
  datatype System = System(
    ledger: L.Ledger,
    id: nat,
    subtotal: nat,
    dispute: Dispute,
    records: map<nat, nat>,
    byHand: set<nat>,
    sweepSaw: bool,
    callers: map<nat, Pc>)

  predicate IsRefund(o: Outcome) {
    o == FULL_REFUND || o == PARTIAL_REFUND
  }

  predicate Ended(pc: Pc) {
    pc.Succeeded? || pc.Raised?
  }

  function RefundKey(s: System): L.Key {
    L.Named(s.id)
  }

  // ---------------------------------------------------------------------------
  // Phases
  // ---------------------------------------------------------------------------

  function Proceed(outcome: Outcome, amount: Option<nat>, mine: bool): Pc {
    if !IsRefund(outcome) then ToFinish(outcome, amount)
    else if amount.None? then Raised
    else ToRefund(outcome, amount.value, mine)
  }

  /** Phase 1: claim an escalated dispute, or join a claim at its stored outcome. */
  function AfterResolve(d: Dispute, subtotal: nat, outcome: Outcome, given: Option<nat>): (Dispute, Pc) {
    if d.status == RESOLVED then (d, Succeeded)
    else if d.status == ESCALATED then
      if outcome == PARTIAL_REFUND && given.None? then (d, Raised)
      else
        var amount :=
          if outcome == FULL_REFUND then Some(subtotal) else if outcome == PARTIAL_REFUND then given else None;
        (d.(status := RESOLVING, outcome := Some(outcome), amount := amount), Proceed(outcome, amount, true))
    else if d.status == RESOLVING && d.outcome.Some? then
      (d, Proceed(d.outcome.value, if IsRefund(d.outcome.value) then d.amount else None, false))
    else (d, Raised)
  }

  function AfterFailure(d: Dispute, mine: bool): Dispute {
    if mine && d.status == RESOLVING then d.(status := ESCALATED) else d
  }

  /** Phase 3: record the refund by its id and resolve, unless someone already has. */
  function AfterFinish(d: Dispute, records: map<nat, nat>, outcome: Outcome, amount: Option<nat>,
                       row: Option<L.Request>)
    : Option<(Dispute, map<nat, nat>)>
  {
    if d.status == RESOLVED then Some((d, records))
    else if IsRefund(outcome) && (amount.None? || row.None? || row.value.refundId.None?) then None
    else
      var held := d.payoutHeld && outcome != REJECTED && outcome != WITHDRAWN;
      var filed :=
        if IsRefund(outcome) && row.value.refundId.value !in records then
          records[row.value.refundId.value := amount.value]
        else records;
      Some((Dispute(RESOLVED, Some(outcome), amount, held), filed))
  }

  function Row(l: L.Ledger, k: L.Key): Option<L.Request> {
    if k in l.requests then Some(l.requests[k]) else None
  }

  // ---------------------------------------------------------------------------
  // Steps and runs
  // ---------------------------------------------------------------------------

  datatype Step =
    | Resolve(c: nat, outcome: Outcome, given: Option<nat>)
    | CallRefund(c: nat)
    | RefundReturned(c: nat)
    | RefundRaised(c: nat)
    | LetGo(c: nat)
    | Finish(c: nat)
    | Crash(c: nat)
    | Respond
    | Escalate
    | Close
    | SweepSees
    | SweepWrites
    | RecordByHand(refundId: nat, amount: nat)
    | Ledger(step: L.Step)

  predicate ResolvedWithRefund(d: Dispute) {
    d.status == RESOLVED && d.outcome.Some? && IsRefund(d.outcome.value)
  }

  predicate Busy(s: System, c: nat) {
    c in s.callers && !Ended(s.callers[c])
  }

  predicate BusyInLedger(s: System, c: nat) {
    c in s.ledger.callers && L.Live(s.ledger.callers[c])
  }

  /**
   The ledger moves on its own, except that the dispute's key and callers belong to the dispute. A resolver's call
   may also end by raising where it stands, without compensation, as an unexpected provider error does.
   */
  predicate LedgerMay(s: System, step: L.Step) {
    match step
    case Claim(c, _, key) => !Busy(s, c) && key != Some(RefundKey(s))
    case _ => true
  }

  predicate Enabled(s: System, step: Step) {
    match step
    case Resolve(c, _, _) => !Busy(s, c) && !BusyInLedger(s, c)
    case CallRefund(c) => c in s.callers && s.callers[c].ToRefund? && !BusyInLedger(s, c)
    case RefundReturned(c) =>
      c in s.callers && s.callers[c].Refunding? && c in s.ledger.callers && s.ledger.callers[c].Returned?
    case RefundRaised(c) =>
      c in s.callers && s.callers[c].Refunding? && c in s.ledger.callers && s.ledger.callers[c].Raised?
    case LetGo(c) => c in s.callers && s.callers[c].Failed?
    case Finish(c) => c in s.callers && s.callers[c].ToFinish?
    case Crash(c) => Busy(s, c)
    case Respond => s.dispute.status == OPEN || s.dispute.status == ESCALATED
    case Escalate => s.dispute.status != RESOLVED && s.dispute.status != CLOSED
    case Close => s.dispute.status != RESOLVED && s.dispute.status != CLOSED
    case SweepSees => s.dispute.status == OPEN
    case SweepWrites => s.sweepSaw
    case RecordByHand(id, _) => ResolvedWithRefund(s.dispute) && id !in s.records
    case Ledger(ls) => L.Enabled(s.ledger, ls) && LedgerMay(s, ls)
  }

  function WithCaller(s: System, c: nat, pc: Pc): System {
    s.(callers := s.callers[c := pc])
  }

  function WithStatus(s: System, status: Status): System {
    s.(dispute := s.dispute.(status := status))
  }

  function Next(s: System, step: Step): System
    requires Enabled(s, step)
  {
    match step
    case Resolve(c, outcome, given) =>
      var (d, pc) := AfterResolve(s.dispute, s.subtotal, outcome, given);
      WithCaller(s.(dispute := d), c, pc)
    case CallRefund(c) =>
      var pc := s.callers[c];
      WithCaller(s.(ledger := L.Next(s.ledger, L.Claim(c, Some(pc.amount), Some(RefundKey(s))))),
                 c, Refunding(pc.outcome, pc.amount, pc.mine))
    case RefundReturned(c) => WithCaller(s, c, ToFinish(s.callers[c].outcome, Some(s.callers[c].amount)))
    case RefundRaised(c) => WithCaller(s, c, Failed(s.callers[c].mine))
    case LetGo(c) => WithCaller(s.(dispute := AfterFailure(s.dispute, s.callers[c].mine)), c, Raised)
    case Finish(c) =>
      var pc := s.callers[c];
      var done := AfterFinish(s.dispute, s.records, pc.outcome, pc.refund, Row(s.ledger, RefundKey(s)));
      if done.None? then WithCaller(s, c, Raised)
      else WithCaller(s.(dispute := done.value.0, records := done.value.1), c, Succeeded)
    case Crash(c) =>
      var ledger := if BusyInLedger(s, c) then L.Next(s.ledger, L.Crash(c)) else s.ledger;
      WithCaller(s.(ledger := ledger), c, Raised)
    case Respond => WithStatus(s, RESPONDENT_REPLIED)
    case Escalate => WithStatus(s, ESCALATED)
    case Close => s.(dispute := s.dispute.(status := CLOSED, payoutHeld := false))
    case SweepSees => s.(sweepSaw := true)
    case SweepWrites => WithStatus(s, ESCALATED).(sweepSaw := false)
    case RecordByHand(id, amount) => s.(records := s.records[id := amount], byHand := s.byHand + {id})
    case Ledger(ls) => s.(ledger := L.Next(s.ledger, ls))
  }

  /** A dispute just opened on a payment of `amount`, with nobody on the ledger yet. */
  function NewSystem(amount: nat, id: nat, subtotal: nat): System {
    System(L.NewLedger(amount), id, subtotal, Dispute(OPEN, None, None, true), map[], {}, false, map[])
  }

  // ---------------------------------------------------------------------------
  // As the code runs: the dispute's row and its refund records, one method a transaction
  // ---------------------------------------------------------------------------

  class DisputeService {
    var dispute: Dispute
    var records: map<nat, nat>
    const subtotal: nat

    constructor (subtotal: nat)
      ensures dispute == Dispute(OPEN, None, None, true) && records == map[] && this.subtotal == subtotal
    {
      this.subtotal := subtotal;
      dispute, records := Dispute(OPEN, None, None, true), map[];
    }

    method ClaimResolution(outcome: Outcome, given: Option<nat>) returns (pc: Pc)
      modifies this`dispute
      ensures (dispute, pc) == AfterResolve(old(dispute), subtotal, outcome, given)
    {
      if dispute.status == RESOLVED {
        return Succeeded;
      }
      if dispute.status == ESCALATED {
        var amount: Option<nat> := None;
        if IsRefund(outcome) {
          if outcome == FULL_REFUND {
            amount := Some(subtotal);
          } else {
            if given.None? {
              return Raised;
            }
            amount := given;
          }
        }
        dispute := dispute.(status := RESOLVING);
        dispute := dispute.(outcome := Some(outcome));
        dispute := dispute.(amount := amount);
        return if IsRefund(outcome) then ToRefund(outcome, amount.value, true) else ToFinish(outcome, None);
      } else if dispute.status == RESOLVING && dispute.outcome.Some? {
        if IsRefund(dispute.outcome.value) {
          if dispute.amount.None? {
            return Raised;
          }
          return ToRefund(dispute.outcome.value, dispute.amount.value, false);
        }
        return ToFinish(dispute.outcome.value, None);
      } else {
        return Raised;
      }
    }

    method ReleaseClaim(mine: bool)
      modifies this`dispute
      ensures dispute == AfterFailure(old(dispute), mine)
    {
      if mine {
        if dispute.status == RESOLVING {
          dispute := dispute.(status := ESCALATED);
        }
      }
    }

    method FinishResolution(outcome: Outcome, amount: Option<nat>, row: Option<L.Request>) returns (ok: bool)
      modifies this`dispute, this`records
      ensures match AfterFinish(old(dispute), old(records), outcome, amount, row)
              case Some(done) => ok && dispute == done.0 && records == done.1
              case None => !ok && dispute == old(dispute) && records == old(records)
    {
      if dispute.status == RESOLVED {
        return true;
      }
      if IsRefund(outcome) {
        if amount.None? || row.None? || row.value.refundId.None? {
          return false;
        }
        var refundId := row.value.refundId.value;
        if refundId !in records {
          records := records[refundId := amount.value];
        }
      }
      dispute := dispute.(status := RESOLVED);
      dispute := dispute.(outcome := Some(outcome));
      dispute := dispute.(amount := amount);
      if outcome == REJECTED || outcome == WITHDRAWN {
        dispute := dispute.(payoutHeld := false);
      }
      return true;
    }
  }
}
