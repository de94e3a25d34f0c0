/** What one undisturbed resolution makes of a dispute, for every outcome, and what an interrupted one leaves. */
module DisputeOutcomes {
  import opened Results
  import opened Runs
  import opened Disputes
  import opened DisputeProofs
  import L = RefundLedger
  import LP = RefundProofs
  import RO = RefundOutcomes

  /** The pence an outcome refunds: the sub-order's subtotal, or what the admin gave; nothing for other outcomes. */
  predicate IsAmount(s: System, outcome: Outcome, given: Option<nat>, amount: Option<nat>) {
    match outcome
    case FULL_REFUND => amount == Some(s.subtotal)
    case PARTIAL_REFUND => amount == given
    case _ => amount == None
  }

  /**
   A claim: on an escalated dispute it stores the outcome asked for and its amount, and is refused only a partial refund
   without an amount. On a dispute being resolved the caller takes up what was stored, whatever it asked for.
   */
  lemma ClaimIs(s: System, c: nat, outcome: Outcome, given: Option<nat>, amount: Option<nat>)
    requires Enabled(s, Resolve(c, outcome, given)) && IsAmount(s, outcome, given, amount)
    ensures var (d, t) := (s.dispute, Next(s, Resolve(c, outcome, given)));
            && t == s.(dispute := t.dispute, callers := s.callers[c := t.callers[c]])
            && (d.status == ESCALATED && (outcome == PARTIAL_REFUND ==> given.Some?) ==>
                  && t.dispute == Dispute(RESOLVING, Some(outcome), amount, d.payoutHeld)
                  && t.callers[c] == if amount.Some? then ToRefund(outcome, amount.value, true)
                                     else ToFinish(outcome, None))
            && (d.status == ESCALATED && outcome == PARTIAL_REFUND && given.None? ==>
                  t.dispute == d && t.callers[c] == Raised)
            && (d.status == RESOLVED ==> t.dispute == d && t.callers[c] == Succeeded)
            && (d.status in {OPEN, RESPONDENT_REPLIED, CLOSED} ==> t.dispute == d && t.callers[c] == Raised)
  {
  }

  lemma JoinIs(s: System, c: nat, outcome: Outcome, given: Option<nat>, claimed: Outcome)
    requires Enabled(s, Resolve(c, outcome, given))
    requires s.dispute.status == RESOLVING && s.dispute.outcome == Some(claimed)
    ensures var t := Next(s, Resolve(c, outcome, given));
            && t == s.(callers := s.callers[c := t.callers[c]])
            && t.callers[c] ==
               if claimed !in {FULL_REFUND, PARTIAL_REFUND} then ToFinish(claimed, None)
               else if s.dispute.amount.None? then Raised
               else ToRefund(claimed, s.dispute.amount.value, false)
  {
  }

  /** Resolved with that outcome and amount; the payout stays held unless the claim was rejected or withdrawn. */
  predicate ResolvedAs(before: Dispute, after: Dispute, outcome: Outcome, amount: Option<nat>) {
    && after.status == RESOLVED && after.outcome == Some(outcome) && after.amount == amount
    && after.payoutHeld == (before.payoutHeld && outcome !in {REJECTED, WITHDRAWN})
  }

  function WithoutRefund(c: nat, outcome: Outcome, given: Option<nat>): seq<Step> {
    [Resolve(c, outcome, given)] + ([Finish(c)] + [])
  }

  /** An outcome without refund is resolved at once, and neither the ledger nor the refund records move. */
  lemma ResolvesWithoutRefund(s: System, c: nat, outcome: Outcome, given: Option<nat>)
    requires s.dispute.status == ESCALATED && outcome in {REPLACEMENT, REJECTED, WITHDRAWN}
    requires Enabled(s, Resolve(c, outcome, given))
    ensures IsRun(Next, s, WithoutRefund(c, outcome, given), AnyStep)
    ensures var t := Run(Next, s, WithoutRefund(c, outcome, given), AnyStep);
            && ResolvedAs(s.dispute, t.dispute, outcome, None)
            && t.records == s.records && t.ledger == s.ledger && t.callers == s.callers[c := Succeeded]
  {
    ClaimIs(s, c, outcome, given, None);
    var s1 := Next(s, Resolve(c, outcome, given));
    assert Enabled(s1, Finish(c));
    assert s1.callers[c := Succeeded] == s.callers[c := Succeeded];
    StepThenRun(Next, s1, Finish(c), [], AnyStep);
    StepThenRun(Next, s, Resolve(c, outcome, given), [Finish(c)] + [], AnyStep);
  }

  // ---------------------------------------------------------------------------
  // With a refund
  // ---------------------------------------------------------------------------

  /** The ledger would let the dispute's key be refunded for `p` pence: nothing stands under it yet. */
  predicate CanReserve(s: System, p: nat) {
    && L.Open(s.ledger.payment) && 0 < p <= L.Refundable(s.ledger.payment)
    && RefundKey(s) !in s.ledger.requests && RefundKey(s) !in s.ledger.foreign
  }

  lemma RefundCalled(s: System, c: nat, outcome: Outcome, p: nat) returns (t: System)
    requires LP.Consistent(s.ledger) && CanReserve(s, p) && !BusyInLedger(s, c)
    requires c in s.callers && s.callers[c] == ToRefund(outcome, p, true)
    ensures Enabled(s, CallRefund(c)) && t == Next(s, CallRefund(c))
    ensures t.dispute == s.dispute && t.records == s.records && t.id == s.id
    ensures t.callers == s.callers[c := Refunding(outcome, p, true)] && t.ledger.provider == s.ledger.provider
    ensures c in t.ledger.callers && t.ledger.callers[c] == L.Claimed(RefundKey(s), p, true)
    ensures RefundKey(s) in t.ledger.requests && RefundKey(s) !in t.ledger.provider
  {
    RO.ClaimReserves(s.ledger, c, Some(p), Some(RefundKey(s)), p, RefundKey(s));
    t := Next(s, CallRefund(c));
    assert RefundKey(s) !in s.ledger.provider;
  }

  /** The provider's refund under the dispute's key, of `p` pence, is what the new refund record names. */
  ghost predicate RefundRecorded(s: System, t: System, p: nat) {
    && RefundKey(s) in t.ledger.provider && t.ledger.provider[RefundKey(s)].amount == p
    && t.records == s.records[t.ledger.provider[RefundKey(s)].id := p]
  }

  lemma RefundMade(s: System, c: nat, outcome: Outcome, p: nat) returns (u: System, v: System, t: System)
    requires c in s.callers && s.callers[c] == Refunding(outcome, p, true) && c in s.ledger.callers
    requires s.ledger.callers[c] == L.Claimed(RefundKey(s), p, true)
    requires RefundKey(s) in s.ledger.requests && RefundKey(s) !in s.ledger.provider
    ensures Enabled(s, Ledger(L.Execute(c))) && u == Next(s, Ledger(L.Execute(c)))
    ensures Enabled(u, Ledger(L.Complete(c))) && v == Next(u, Ledger(L.Complete(c)))
    ensures Enabled(v, RefundReturned(c)) && t == Next(v, RefundReturned(c))
    ensures t.dispute == s.dispute && t.records == s.records && t.id == s.id
    ensures t.callers == s.callers[c := ToFinish(outcome, Some(p))]
    ensures RefundKey(s) in t.ledger.provider
    ensures t.ledger.provider[RefundKey(s)] == L.Refund(|s.ledger.provider|, p)
    ensures RefundKey(s) in t.ledger.requests
    ensures t.ledger.requests[RefundKey(s)].refundId == Some(t.ledger.provider[RefundKey(s)].id)
  {
    RO.ExecutedAndCompleted(s.ledger, c, RefundKey(s));
    u := Next(s, Ledger(L.Execute(c)));
    v := Next(u, Ledger(L.Complete(c)));
    t := Next(v, RefundReturned(c));
  }

  lemma RefundFinished(s: System, c: nat, outcome: Outcome, p: nat) returns (t: System)
    requires c in s.callers && s.callers[c] == ToFinish(outcome, Some(p)) && IsRefund(outcome)
    requires s.dispute.status == RESOLVING
    requires RefundKey(s) in s.ledger.provider && s.ledger.provider[RefundKey(s)].amount == p
    requires RefundKey(s) in s.ledger.requests
    requires s.ledger.requests[RefundKey(s)].refundId == Some(s.ledger.provider[RefundKey(s)].id)
    requires s.ledger.provider[RefundKey(s)].id !in s.records
    ensures Enabled(s, Finish(c)) && t == Next(s, Finish(c))
    ensures ResolvedAs(s.dispute, t.dispute, outcome, Some(p)) && RefundRecorded(s, t, p)
    ensures t.callers == s.callers[c := Succeeded]
  {
    t := Next(s, Finish(c));
  }

  /** Resolved from dispute `d` under `k`, its refund of `p` pence made and named by one new record. */
  function ResolvedByRefund(d: Dispute, records: map<nat, nat>, k: L.Key, outcome: Outcome, p: nat): System -> bool {
    (t: System) =>
      && ResolvedAs(d, t.dispute, outcome, Some(p))
      && k in t.ledger.provider && t.ledger.provider[k].amount == p
      && t.records == records[t.ledger.provider[k].id := p]
  }

  lemma MadeAndFinished(s: System, d: Dispute, c: nat, outcome: Outcome, p: nat)
    requires c in s.callers && s.callers[c] == Refunding(outcome, p, true) && c in s.ledger.callers && IsRefund(outcome)
    requires s.ledger.callers[c] == L.Claimed(RefundKey(s), p, true)
    requires RefundKey(s) in s.ledger.requests && RefundKey(s) !in s.ledger.provider
    requires s.dispute.status == RESOLVING && s.dispute.payoutHeld == d.payoutHeld
    requires |s.ledger.provider| !in s.records
    ensures CanReach(Next, s, AnyStep, ResolvedByRefund(d, s.records, RefundKey(s), outcome, p))
  {
    var goal := ResolvedByRefund(d, s.records, RefundKey(s), outcome, p);
    var u, v, t := RefundMade(s, c, outcome, p);
    var w := RefundFinished(t, c, outcome, p);
    ReachNow(Next, w, AnyStep, goal);
    ReachNext(Next, t, Finish(c), AnyStep, goal);
    ReachNext(Next, v, RefundReturned(c), AnyStep, goal);
    ReachNext(Next, u, Ledger(L.Complete(c)), AnyStep, goal);
    ReachNext(Next, s, Ledger(L.Execute(c)), AnyStep, goal);
  }

  /**
   A refund outcome on an escalated dispute can be carried through, for the sub-order's subtotal or what the admin gave,
   whenever the payment has that much left: the provider refunds exactly that, and one new record names the refund.
   */
  lemma ResolvesByRefund(s: System, c: nat, outcome: Outcome, given: Option<nat>, p: nat)
    requires LP.Consistent(s.ledger) && s.dispute.status == ESCALATED && outcome in {FULL_REFUND, PARTIAL_REFUND}
    requires Enabled(s, Resolve(c, outcome, given)) && CanReserve(s, p) && |s.ledger.provider| !in s.records
    requires if outcome == FULL_REFUND then p == s.subtotal else given == Some(p)
    ensures CanReach(Next, s, AnyStep, ResolvedByRefund(s.dispute, s.records, RefundKey(s), outcome, p))
  {
    var goal := ResolvedByRefund(s.dispute, s.records, RefundKey(s), outcome, p);
    ClaimIs(s, c, outcome, given, Some(p));
    var t := Next(s, Resolve(c, outcome, given));
    var u := RefundCalled(t, c, outcome, p);
    MadeAndFinished(u, s.dispute, c, outcome, p);
    ReachNext(Next, t, CallRefund(c), AnyStep, goal);
    ReachNext(Next, s, Resolve(c, outcome, given), AnyStep, goal);
  }

  // ---------------------------------------------------------------------------
  // Interruptions, and the parties
  // ---------------------------------------------------------------------------

  /** After a failed call only the claimant lets go, and only of a claim that still stands; nothing is recorded. */
  lemma LetGoIs(s: System, c: nat)
    requires Enabled(s, LetGo(c))
    ensures var t := Next(s, LetGo(c));
            && t == s.(dispute := t.dispute, callers := s.callers[c := Raised])
            && t.dispute == if s.callers[c] == Failed(true) && s.dispute.status == RESOLVING
                            then s.dispute.(status := ESCALATED) else s.dispute
  {
  }

  /** What the parties and the overdue sweep write: the status, and on closing the payout's release. */
  lemma PartyStepIs(s: System, step: Step)
    requires Enabled(s, step) && (step.Respond? || step.Escalate? || step.Close? || step.SweepWrites?)
    ensures var t := Next(s, step);
            && t.ledger == s.ledger && t.callers == s.callers && t.records == s.records
            && t.dispute.outcome == s.dispute.outcome && t.dispute.amount == s.dispute.amount
            && t.dispute.status ==
               (if step.Respond? then RESPONDENT_REPLIED else if step.Close? then CLOSED else ESCALATED)
            && t.dispute.payoutHeld == (s.dispute.payoutHeld && !step.Close?)
  {
  }
}
