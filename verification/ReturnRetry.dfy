/** Whether a return whose refund has gone out, but whose payout reversal failed, can be finished by trying again. */
module ReturnRetry {
  import opened FreshIds
  import opened Results
  import opened Runs
  import opened ReturnStates
  import opened ReturnRefund
  import opened ReturnProofs
  import opened ReturnOutcomes
  import L = RefundLedger

  /** The buyer has been refunded `a`, the return is still REFUNDING, and every caller has given up. */
  ghost predicate Stranded(s: System, a: int) {
    && s.ret.status == REFUNDING && s.ret.amount == Some(a) && a > 0 && s.hasPayment && s.paid == {a}
    && L.ByAmount(a) in s.ledger.requests && s.ledger.requests[L.ByAmount(a)].status == L.Completed
    && L.ByAmount(a) !in s.ledger.foreign
    && forall c :: c in s.callers ==> Ended(s.callers[c])
  }

  predicate ClosedStaysClosed(s: System, step: Step) {
    step.Ledger? && L.Enabled(s.ledger, step.step) ==> L.StaysClosed(s.ledger, step.step)
  }

  // ---------------------------------------------------------------------------
  // A closed payment turns every retry away
  // ---------------------------------------------------------------------------

  predicate GetsNowhere(s: System, c: nat)
    requires c in s.callers
  {
    match s.callers[c]
    case Claimed(_, mine) => !mine
    case Asking(_, mine) => !mine && c in s.ledger.callers && s.ledger.callers[c].Raised?
    case Failed(mine) => !mine
    case pc => Ended(pc)
  }

  predicate Stuck(s: System) {
    && s.ret.status == REFUNDING && !L.Open(s.ledger.payment)
    && forall c :: c in s.callers ==> GetsNowhere(s, c)
  }

  lemma StuckLedgerStep(s: System, step: L.Step)
    requires Stuck(s) && Enabled(s, Ledger(step)) && ClosedStaysClosed(s, Ledger(step))
    ensures Stuck(Next(s, Ledger(step)))
  {
    var t := Next(s, Ledger(step));
    forall c | c in t.callers ensures GetsNowhere(t, c) {
      assert GetsNowhere(s, c);
    }
  }

  lemma StuckStep(s: System, step: Step)
    requires Stuck(s) && Enabled(s, step) && ClosedStaysClosed(s, step)
    ensures Stuck(Next(s, step))
  {
    if step.Ledger? {
      StuckLedgerStep(s, step.step);
    } else {
      var t := Next(s, step);
      assert step.LetGo? ==> GetsNowhere(s, step.c);
      assert step.ReverseOk? || step.ReverseError? || step.Finish? || step.Answered? ==> GetsNowhere(s, step.c);
      forall c | c in t.callers ensures GetsNowhere(t, c) {
        assert c in s.callers ==> GetsNowhere(s, c);
      }
    }
  }

  lemma {:induction false} StuckRun(s: System, steps: seq<Step>)
    requires Stuck(s) && IsRun(Next, s, steps, ClosedStaysClosed)
    ensures Run(Next, s, steps, ClosedStaysClosed).ret.status == REFUNDING
    decreases |steps|
  {
    if steps != [] {
      assert Enabled(s, steps[0]);
      StuckStep(s, steps[0]);
      StuckRun(Next(s, steps[0]), steps[1..]);
    }
  }

  // ---------------------------------------------------------------------------
  // An open one lets a retry through, and refunds nothing more
  // ---------------------------------------------------------------------------

  lemma CompletedAtOnce(l: L.Ledger, c: nat, a: int)
    requires L.Open(l.payment) && a > 0 && !(c in l.callers && L.Live(l.callers[c]))
    requires L.ByAmount(a) in l.requests && l.requests[L.ByAmount(a)].status == L.Completed
    requires L.ByAmount(a) !in l.foreign
    ensures L.Next(l, L.Claim(c, Some(a), None)) == l.(callers := l.callers[c := L.Returned(L.ByAmount(a))])
  {
  }

  lemma RetryFinishes(s: System, a: int)
    requires Stranded(s, a) && L.Open(s.ledger.payment) && AllPositive(UnitsBack(s.ret))
    ensures CanReach(Next, s, ClosedStaysClosed, RefundedAs(a))
  {
    var c := FreshId(s.callers.Keys + s.ledger.callers.Keys);
    assert c !in s.callers.Keys + s.ledger.callers.Keys;
    var s1 := Next(s, Begin(c, None));
    CompletedAtOnce(s1.ledger, c, a);
    var s2 := Next(s1, Ask(c));
    var s3 := Next(s2, Answered(c));
    assert s3.paid == {a};
    RefundedThenRestocked(s3, c, a, ClosedStaysClosed);
    ReachNext(Next, s2, Answered(c), ClosedStaysClosed, RefundedAs(a));
    ReachNext(Next, s1, Ask(c), ClosedStaysClosed, RefundedAs(a));
    ReachNext(Next, s, Begin(c, None), ClosedStaysClosed, RefundedAs(a));
  }

  /**
   A retry can finish such a return, with no second refund, exactly when the payment still takes refunds and every line
   to be put back has units. Closed, as a full refund leaves it, it turns away each retry, and no retry lets go.
   */
  lemma RetryFinishesIff(s: System, a: int)
    requires Stranded(s, a)
    ensures var finishes := L.Open(s.ledger.payment)
                            && AllPositive(if s.ret.items == [] then s.ret.subItems else s.ret.items);
            && (CanReach(Next, s, ClosedStaysClosed, IsRefunded) <==> finishes)
            && (CanReach(Next, s, ClosedStaysClosed, RefundedAs(a)) <==> finishes)
  {
    var ok := ClosedStaysClosed;
    if !AllPositive(UnitsBack(s.ret)) {
      forall steps | IsRun(Next, s, steps, ok) ensures Run(Next, s, steps, ok).ret.status != REFUNDED {
        EmptyLineRun(s, steps, ok);
      }
    } else if L.Open(s.ledger.payment) {
      RetryFinishes(s, a);
      var steps :| IsRun(Next, s, steps, ok) && RefundedAs(a)(Run(Next, s, steps, ok));
      assert IsRefunded(Run(Next, s, steps, ok));
    } else {
      forall c | c in s.callers ensures GetsNowhere(s, c) {
        assert Ended(s.callers[c]);
      }
      forall steps | IsRun(Next, s, steps, ok) ensures Run(Next, s, steps, ok).ret.status != REFUNDED {
        StuckRun(s, steps);
      }
    }
  }

  // ---------------------------------------------------------------------------
  // How a return comes to that
  // ---------------------------------------------------------------------------

  /** Refunded all that was paid, as the webhook reported too, and never to be REFUNDED. */
  ghost predicate Abandoned(s: System) {
    && Stranded(s, s.ledger.payment.amount) && s.ledger.payment.refunded == s.ledger.payment.amount
    && s.ledger.payment.status == L.REFUNDED
    && !CanReach(Next, s, ClosedStaysClosed, IsRefunded)
  }

  lemma ReportedInFull(s: System, a: nat)
    requires Stranded(s, a) && a == s.ledger.payment.amount
    ensures CanReach(Next, s, ClosedStaysClosed, Abandoned)
  {
    var webhook := Ledger(L.Webhook(Some((a, a))));
    var t := Next(s, webhook);
    RetryFinishesIff(t, a);
    ReachNow(Next, t, ClosedStaysClosed, Abandoned);
    ReachNext(Next, s, webhook, ClosedStaysClosed, Abandoned);
  }

  lemma ReversalFails(s: System, c: nat, a: nat)
    requires s.ret.status == REFUNDING && s.ret.amount == Some(a) && s.hasPayment && s.paid == {a}
    requires s.callers == map[c := Asking(a, true)]
    requires c in s.ledger.callers && s.ledger.callers[c].Executed? && s.ledger.callers[c].key == L.ByAmount(a)
    requires L.ByAmount(a) in s.ledger.requests && s.ledger.foreign == {} && 0 < a == s.ledger.payment.amount
    ensures CanReach(Next, s, ClosedStaysClosed, Abandoned)
  {
    var s1 := Next(s, Ledger(L.Complete(c)));
    assert s1.ledger.callers[c].Returned? && s1.callers == s.callers;
    var s2 := Next(s1, Answered(c));
    var s3 := Next(s2, ReverseError(c));
    assert s3.callers == map[c := Raised];
    ReportedInFull(s3, a);
    ReachNext(Next, s2, ReverseError(c), ClosedStaysClosed, Abandoned);
    ReachNext(Next, s1, Answered(c), ClosedStaysClosed, Abandoned);
    ReachNext(Next, s, Ledger(L.Complete(c)), ClosedStaysClosed, Abandoned);
  }

  lemma RefundedThenStranded(s: System, c: nat, a: nat)
    requires OneAtProvider(s, c, a, a) && s.paid == {}
    ensures CanReach(Next, s, ClosedStaysClosed, Abandoned)
  {
    var t := Next(s, Ledger(L.Execute(c)));
    assert t.paid == {a};
    ReversalFails(t, c, a);
    ReachNext(Next, s, Ledger(L.Execute(c)), ClosedStaysClosed, Abandoned);
  }

  /**
   An approved return of everything that was paid: it is refunded, the payout reversal fails, the webhook reports the
   refund, and then no retry can mark the return REFUNDED or put its units back.
   */
  lemma FullReturnCanBeAbandoned(s: System)
    requires Claimable(s) && s.ledger.payment.amount > 0
    ensures CanReach(Next, s, ClosedStaysClosed, Abandoned)
  {
    var (c, a) := (0, s.ledger.payment.amount);
    var s1, s2 := FirstCallerAsks(s, c, a);
    RefundedThenStranded(s2, c, a);
    ReachNext(Next, s1, Ask(c), ClosedStaysClosed, Abandoned);
    ReachNext(Next, s, Begin(c, Some(a)), ClosedStaysClosed, Abandoned);
  }
}
