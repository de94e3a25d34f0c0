/** Whether a dispute whose refund has gone out, but was never filed, can still be resolved as refunded. */
module DisputeRetry {
  import opened FreshIds
  import opened Results
  import opened Runs
  import opened Disputes
  import opened DisputeProofs
  import opened DisputeOutcomes
  import L = RefundLedger
  import LP = RefundProofs

  /** Claimed for `p` pence and refunded, but not filed: whoever resolved it has stopped, and nobody has taken over. */
  ghost predicate Unfiled(s: System, p: nat) {
    && s.dispute.status == RESOLVING && s.dispute.outcome.Some? && IsRefund(s.dispute.outcome.value)
    && s.dispute.amount == Some(p) && p > 0
    && RefundKey(s) in s.ledger.provider && RefundKey(s) !in s.ledger.foreign && RefundKey(s) in s.ledger.requests
    && s.ledger.requests[RefundKey(s)].status == L.Completed && s.ledger.requests[RefundKey(s)].refundId.Some?
    && forall c :: c in s.callers ==> Ended(s.callers[c])
  }

  predicate SaysRefunded(s: System) {
    ResolvedWithRefund(s.dispute)
  }

  predicate ClosedStaysClosed(s: System, step: Step) {
    step.Ledger? && L.Enabled(s.ledger, step.step) ==> L.StaysClosed(s.ledger, step.step)
  }

  predicate GetsNowhere(s: System, c: nat)
    requires c in s.callers
  {
    match s.callers[c]
    case Refunding(_, _, _) => c in s.ledger.callers && s.ledger.callers[c].Raised?
    case ToFinish(outcome, _) => !IsRefund(outcome)
    case _ => true
  }

  predicate Stuck(s: System) {
    && !SaysRefunded(s) && !L.Open(s.ledger.payment)
    && forall c :: c in s.callers ==> GetsNowhere(s, c)
  }

  lemma StuckLedgerStep(s: System, step: L.Step)
    requires Stuck(s) && Enabled(s, Ledger(step)) && ClosedStaysClosed(s, Ledger(step))
    ensures Stuck(Next(s, Ledger(step)))
  {
    var t := Next(s, Ledger(step));
    forall c | c in t.callers ensures GetsNowhere(t, c) {
      assert GetsNowhere(s, c);
    }
  }

  lemma StuckStep(s: System, step: Step)
    requires Stuck(s) && Enabled(s, step) && ClosedStaysClosed(s, step)
    ensures Stuck(Next(s, step))
  {
    if step.Ledger? {
      StuckLedgerStep(s, step.step);
    } else {
      var t := Next(s, step);
      assert step.Finish? || step.RefundReturned? ==> GetsNowhere(s, step.c);
      forall c | c in t.callers ensures GetsNowhere(t, c) {
        assert c in s.callers ==> GetsNowhere(s, c);
      }
    }
  }

  lemma {:induction false} StuckRun(s: System, steps: seq<Step>)
    requires Stuck(s) && IsRun(Next, s, steps, ClosedStaysClosed)
    ensures !SaysRefunded(Run(Next, s, steps, ClosedStaysClosed))
    decreases |steps|
  {
    if steps != [] {
      assert Enabled(s, steps[0]);
      StuckStep(s, steps[0]);
      StuckRun(Next(s, steps[0]), steps[1..]);
    }
  }

  lemma ReturnedIsFiled(s: System, c: nat, outcome: Outcome, p: nat)
    requires s.dispute.status == RESOLVING && IsRefund(outcome) && RefundKey(s) in s.ledger.requests
    requires s.ledger.requests[RefundKey(s)].refundId.Some?
    requires c in s.callers && s.callers[c] == Refunding(outcome, p, false)
    requires c in s.ledger.callers && s.ledger.callers[c].Returned?
    ensures CanReach(Next, s, ClosedStaysClosed, SaysRefunded)
  {
    var t := Next(s, RefundReturned(c));
    ReachNow(Next, Next(t, Finish(c)), ClosedStaysClosed, SaysRefunded);
    ReachNext(Next, t, Finish(c), ClosedStaysClosed, SaysRefunded);
    ReachNext(Next, s, RefundReturned(c), ClosedStaysClosed, SaysRefunded);
  }

  lemma RetryFiles(s: System, p: nat)
    requires Unfiled(s, p) && L.Open(s.ledger.payment)
    ensures CanReach(Next, s, ClosedStaysClosed, SaysRefunded)
  {
    var c := FreshId(s.callers.Keys + s.ledger.callers.Keys);
    assert c !in s.callers.Keys + s.ledger.callers.Keys;
    var outcome := s.dispute.outcome.value;
    var s1 := Next(s, Resolve(c, outcome, None));
    assert s1.callers[c] == ToRefund(outcome, p, false);
    var s2 := Next(s1, CallRefund(c));
    assert s2.ledger.callers[c].Returned?;
    ReturnedIsFiled(s2, c, outcome, p);
    ReachNext(Next, s1, CallRefund(c), ClosedStaysClosed, SaysRefunded);
    ReachNext(Next, s, Resolve(c, outcome, None), ClosedStaysClosed, SaysRefunded);
  }

  /**
   Such a dispute can be resolved as refunded exactly when the payment still takes refunds. Once it is closed, as a full
   refund leaves it, every retry is refused; escalating it again only lets it be resolved without a refund.
   */
  lemma RetryFilesIff(s: System, p: nat)
    requires Unfiled(s, p)
    ensures CanReach(Next, s, ClosedStaysClosed, SaysRefunded) <==> L.Open(s.ledger.payment)
  {
    if L.Open(s.ledger.payment) {
      RetryFiles(s, p);
    } else {
      forall c | c in s.callers ensures GetsNowhere(s, c) {
        assert Ended(s.callers[c]);
      }
      forall steps | IsRun(Next, s, steps, ClosedStaysClosed)
        ensures !SaysRefunded(Run(Next, s, steps, ClosedStaysClosed))
      {
        StuckRun(s, steps);
      }
    }
  }

  // ---------------------------------------------------------------------------
  // How a dispute comes to that
  // ---------------------------------------------------------------------------

  /** All that was paid is refunded, as the webhook reported too, and no resolution will ever say so. */
  ghost predicate Unsayable(s: System) {
    && Unfiled(s, s.ledger.payment.amount) && s.ledger.payment.refunded == s.ledger.payment.amount
    && !CanReach(Next, s, ClosedStaysClosed, SaysRefunded)
  }

  lemma StopsBeforeFiling(s: System, c: nat, p: nat)
    requires Unfiled(s.(callers := s.callers[c := Raised]), p) && p == s.ledger.payment.amount
    requires c in s.callers && s.callers[c].Refunding? && !BusyInLedger(s, c)
    ensures CanReach(Next, s, ClosedStaysClosed, Unsayable)
  {
    var webhook := Ledger(L.Webhook(Some((p, p))));
    var s1 := Next(s, Crash(c));
    var s2 := Next(s1, webhook);
    RetryFilesIff(s2, p);
    ReachNow(Next, s2, ClosedStaysClosed, Unsayable);
    ReachNext(Next, s1, webhook, ClosedStaysClosed, Unsayable);
    ReachNext(Next, s, Crash(c), ClosedStaysClosed, Unsayable);
  }

  lemma RefundedThenStops(s: System, c: nat, p: nat)
    requires s.dispute.status == RESOLVING && s.dispute.outcome == Some(FULL_REFUND) && s.dispute.amount == Some(p)
    requires p == s.ledger.payment.amount > 0 && c in s.ledger.callers && RefundKey(s) !in s.ledger.foreign
    requires s.ledger.callers[c] == L.Claimed(RefundKey(s), p, true)
    requires RefundKey(s) in s.ledger.requests && RefundKey(s) !in s.ledger.provider
    requires c in s.callers && s.callers[c].Refunding? && forall d :: d in s.callers && d != c ==> Ended(s.callers[d])
    ensures CanReach(Next, s, ClosedStaysClosed, Unsayable)
  {
    var s1 := Next(s, Ledger(L.Execute(c)));
    var s2 := Next(s1, Ledger(L.Complete(c)));
    StopsBeforeFiling(s2, c, p);
    ReachNext(Next, s1, Ledger(L.Complete(c)), ClosedStaysClosed, Unsayable);
    ReachNext(Next, s, Ledger(L.Execute(c)), ClosedStaysClosed, Unsayable);
  }

  /** From an escalated dispute over all that was paid: claimed, refunded, stopped before the commit, and reported. */
  lemma FullRefundCanGoUnsaid(s: System, c: nat, p: nat)
    requires LP.Consistent(s.ledger) && s.dispute.status == ESCALATED && s.subtotal == p == s.ledger.payment.amount
    requires Enabled(s, Resolve(c, FULL_REFUND, None)) && CanReserve(s, p)
    requires forall d :: d in s.callers ==> Ended(s.callers[d])
    ensures CanReach(Next, s, ClosedStaysClosed, Unsayable)
  {
    ClaimIs(s, c, FULL_REFUND, None, Some(p));
    var s1 := Next(s, Resolve(c, FULL_REFUND, None));
    var s2 := RefundCalled(s1, c, FULL_REFUND, p);
    RefundedThenStops(s2, c, p);
    ReachNext(Next, s1, CallRefund(c), ClosedStaysClosed, Unsayable);
    ReachNext(Next, s, Resolve(c, FULL_REFUND, None), ClosedStaysClosed, Unsayable);
  }
}
