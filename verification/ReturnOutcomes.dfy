/** Which returns can end refunded at all, and at what amount: over every run, from before anyone has tried. */
module ReturnOutcomes {
  import opened Results
  import opened Runs
  import opened Inventory
  import opened ReturnStates
  import opened ReturnRefund
  import opened ReturnProofs
  import L = RefundLedger

  /** REFUNDED, with `a` pence stored and the provider's refund of `a` as the only one made for it. */
  function RefundedAs(a: int): System -> bool {
    (s: System) => s.ret.status == REFUNDED && s.ret.amount == Some(a) && s.paid == {a}
  }

  predicate AllPositive(lines: seq<Line>) {
    forall j :: 0 <= j < |lines| ==> lines[j].quantity > 0
  }

  // ---------------------------------------------------------------------------
  // What rules it out
  // ---------------------------------------------------------------------------

  /** Rejected, or without a payment: every caller is turned away. */
  predicate TurnedAway(s: System) {
    && (s.ret.status == REJECTED || !s.hasPayment) && s.ret.status != REFUNDED && s.ret.status != REFUNDING
    && forall c :: c in s.callers ==> s.callers[c].Raised?
  }

  lemma TurnedAwayStep(s: System, step: Step)
    requires TurnedAway(s) && Enabled(s, step)
    ensures TurnedAway(Next(s, step))
  {
    var t := Next(s, step);
    forall c | c in t.callers ensures t.callers[c].Raised? {
      assert c in s.callers ==> s.callers[c].Raised?;
    }
  }

  lemma {:induction false} TurnedAwayRun(s: System, steps: seq<Step>, ok: (System, Step) -> bool)
    requires TurnedAway(s) && IsRun(Next, s, steps, ok)
    ensures Run(Next, s, steps, ok).ret.status != REFUNDED
    decreases |steps|
  {
    if steps != [] {
      assert Enabled(s, steps[0]);
      TurnedAwayStep(s, steps[0]);
      TurnedAwayRun(Next(s, steps[0]), steps[1..], ok);
    }
  }

  /** A return with a line of no units is never restocked, so never REFUNDED. */
  lemma {:induction false} EmptyLineRun(s: System, steps: seq<Step>, ok: (System, Step) -> bool)
    requires s.ret.status != REFUNDED && !AllPositive(UnitsBack(s.ret)) && IsRun(Next, s, steps, ok)
    ensures Run(Next, s, steps, ok).ret.status != REFUNDED
    decreases |steps|
  {
    if steps != [] {
      assert Enabled(s, steps[0]);
      RestockFailsIff(s.stock, UnitsBack(s.ret));
      EmptyLineRun(Next(s, steps[0]), steps[1..], ok);
    }
  }

  // ---------------------------------------------------------------------------
  // One caller, alone
  // ---------------------------------------------------------------------------

  /** The buyer is refunded: the payout is reversed and the units are put back. */
  lemma RefundedThenRestocked(s: System, c: nat, a: int, ok: (System, Step) -> bool)
    requires s.ret.status == REFUNDING && s.ret.amount == Some(a) && s.paid == {a} && AllPositive(UnitsBack(s.ret))
    requires c in s.callers && s.callers[c] == BuyerRefunded(a)
    requires forall v: System, step: Step :: step.ReverseOk? || step.Finish? ==> ok(v, step)
    ensures CanReach(Next, s, ok, RefundedAs(a))
  {
    var s1 := Next(s, ReverseOk(c));
    RestockFailsIff(s1.stock, UnitsBack(s1.ret));
    var s2 := Next(s1, Finish(c));
    ReachNow(Next, s2, ok, RefundedAs(a));
    ReachNext(Next, s1, Finish(c), ok, RefundedAs(a));
    ReachNext(Next, s, ReverseOk(c), ok, RefundedAs(a));
  }

  lemma ExecutedIsAnswered(s: System, c: nat, a: int, ok: (System, Step) -> bool)
    requires s.ret.status == REFUNDING && s.ret.amount == Some(a) && s.paid == {a} && AllPositive(UnitsBack(s.ret))
    requires c in s.callers && s.callers[c].Asking? && s.callers[c].amount == a
    requires c in s.ledger.callers && s.ledger.callers[c].Executed? && s.ledger.callers[c].key in s.ledger.requests
    requires forall v: System, step: Step :: !step.Begin? ==> ok(v, step)
    ensures CanReach(Next, s, ok, RefundedAs(a))
  {
    var s1 := Next(s, Ledger(L.Complete(c)));
    assert s1.ledger.callers[c].Returned? && s1.callers == s.callers;
    var s2 := Next(s1, Answered(c));
    assert s2.paid == {a};
    RefundedThenRestocked(s2, c, a, ok);
    ReachNext(Next, s1, Answered(c), ok, RefundedAs(a));
    ReachNext(Next, s, Ledger(L.Complete(c)), ok, RefundedAs(a));
  }

  lemma RefundAnswered(s: System, c: nat, a: int, amount: nat, ok: (System, Step) -> bool)
    requires OneAtProvider(s, c, a, amount) && s.paid == {} && AllPositive(UnitsBack(s.ret))
    requires forall v: System, step: Step :: !step.Begin? ==> ok(v, step)
    ensures CanReach(Next, s, ok, RefundedAs(a))
  {
    var t := Next(s, Ledger(L.Execute(c)));
    assert t.paid == {a};
    ExecutedIsAnswered(t, c, a, ok);
    ReachNext(Next, s, Ledger(L.Execute(c)), ok, RefundedAs(a));
  }

  lemma ApprovedIsRefunded(s: System, a: int)
    requires Claimable(s) && 0 < a <= s.ledger.payment.amount && AllPositive(UnitsBack(s.ret))
    ensures CanReach(Next, s, AskedWithin({a}), RefundedAs(a))
  {
    var c := 0;
    var s1, s2 := FirstCallerAsks(s, c, a);
    RefundAnswered(s2, c, a, s.ledger.payment.amount, AskedWithin({a}));
    ReachNext(Next, s1, Ask(c), AskedWithin({a}), RefundedAs(a));
    ReachNext(Next, s, Begin(c, Some(a)), AskedWithin({a}), RefundedAs(a));
  }

  /**
   Before anyone has tried, and with the payment not refunded yet: when callers ask for one amount, the return can end
   REFUNDED at it, by one refund of it, exactly when the return has not been rejected, the order was paid, the payment
   can bear the amount, and every line to be put back, of the return or else of the whole sub-order, has units.
   */
  lemma RefundableIff(s: System, a: int)
    requires Untouched(s) && s.ledger == L.NewLedger(s.ledger.payment.amount)
    ensures CanReach(Next, s, AskedWithin({a}), RefundedAs(a)) <==>
            && s.ret.status != REJECTED && s.hasPayment && 0 < a <= s.ledger.payment.amount
            && AllPositive(if s.ret.items == [] then s.ret.subItems else s.ret.items)
  {
    var ok := AskedWithin({a});
    if s.ret.status == REJECTED || !s.hasPayment {
      forall steps | IsRun(Next, s, steps, ok) ensures !RefundedAs(a)(Run(Next, s, steps, ok)) {
        TurnedAwayRun(s, steps, ok);
      }
    } else if !AllPositive(UnitsBack(s.ret)) {
      forall steps | IsRun(Next, s, steps, ok) ensures !RefundedAs(a)(Run(Next, s, steps, ok)) {
        EmptyLineRun(s, steps, ok);
      }
    } else if !(0 < a <= s.ledger.payment.amount) {
      forall steps | IsRun(Next, s, steps, ok) ensures !RefundedAs(a)(Run(Next, s, steps, ok)) {
        RefundsWithinAsked(s, {a}, steps, ok);
        assert a !in Bearable(s, {a});
      }
    } else if s.ret.status == REQUESTED {
      ApprovedIsRefunded(Next(s, Approve), a);
      ReachNext(Next, s, Approve, ok, RefundedAs(a));
    } else {
      ApprovedIsRefunded(s, a);
    }
  }

  predicate IsRefunded(s: System) {
    s.ret.status == REFUNDED
  }

  /** The decision on a requested return, before anyone tries to refund it: rejected, it is never REFUNDED at all. */
  lemma RejectedIsNeverRefunded(s: System)
    requires Untouched(s) && s.ret.status == REQUESTED
    ensures Enabled(s, Reject) && !CanReach(Next, Next(s, Reject), AnyStep, IsRefunded)
  {
    var t := Next(s, Reject);
    forall steps | IsRun(Next, t, steps, AnyStep) ensures !IsRefunded(Run(Next, t, steps, AnyStep)) {
      TurnedAwayRun(t, steps, AnyStep);
    }
  }

  // ---------------------------------------------------------------------------
  // An attempt that fails
  // ---------------------------------------------------------------------------

  /** Caller `c` claims the return, asks, is refused by the provider, and lets go. */
  function FailedAttempt(c: nat, given: Option<int>): seq<Step> {
    [Begin(c, given)] + ([Ask(c)] + ([Ledger(L.Refuse(c))]
    + ([Ledger(L.Release(c))] + ([Refused(c)] + ([LetGo(c)] + [])))))
  }

  /** As before the attempt: approved, no unit and no penny moved. Only the amount tried stays on the return. */
  ghost predicate PutBack(s: System, t: System, c: nat, a: int) {
    && t == s.(ret := t.ret, ledger := t.ledger, callers := s.callers[c := Raised])
    && t.ret == s.ret.(amount := Some(a))
    && t.ledger.payment == s.ledger.payment
  }

  /** The claimant's call has raised: it reopens the return, and nothing else has changed. */
  lemma LetsGo(s: System, c: nat)
    requires s.ret.status == REFUNDING && InCall(s, c) && s.callers[c].mine && s.ledger.callers[c].Raised?
    ensures IsRun(Next, s, [Refused(c)] + ([LetGo(c)] + []), AnyStep)
    ensures Run(Next, s, [Refused(c)] + ([LetGo(c)] + []), AnyStep)
            == s.(ret := s.ret.(status := APPROVED), callers := s.callers[c := Raised])
  {
    var s1 := Next(s, Refused(c));
    var s2 := Next(s1, LetGo(c));
    assert s2.callers == s.callers[c := Raised];
    StepThenRun(Next, s1, LetGo(c), [], AnyStep);
    StepThenRun(Next, s, Refused(c), [LetGo(c)] + [], AnyStep);
  }

  lemma RefusedThenLetsGo(s: System, c: nat, a: int, amount: nat)
    requires OneAtProvider(s, c, a, amount)
    ensures var steps := [Ledger(L.Refuse(c))] + ([Ledger(L.Release(c))] + ([Refused(c)] + ([LetGo(c)] + [])));
            && IsRun(Next, s, steps, AnyStep)
            && var t := Run(Next, s, steps, AnyStep);
               && t == s.(ret := s.ret.(status := APPROVED), ledger := t.ledger, callers := s.callers[c := Raised])
               && t.ledger.payment == s.ledger.payment.(pending := 0)
  {
    RefusedAndReleased(s.ledger, c, a);
    var s1 := Next(s, Ledger(L.Refuse(c)));
    var s2 := Next(s1, Ledger(L.Release(c)));
    var rest := [Refused(c)] + ([LetGo(c)] + []);
    LetsGo(s2, c);
    StepThenRun(Next, s1, Ledger(L.Release(c)), rest, AnyStep);
    StepThenRun(Next, s, Ledger(L.Refuse(c)), [Ledger(L.Release(c))] + rest, AnyStep);
  }

  /**
   An approved return whose refund the provider refuses is approved again, to be tried anew: no penny is reserved, no
   unit is put back, and only the amount tried stays on it, which is the one given or else what is due.
   */
  lemma RefusedAttemptIsUndone(s: System, c: nat, given: Option<int>)
    requires Claimable(s)
    requires 0 < (if given.Some? then given.value else s.ret.due) <= s.ledger.payment.amount
    ensures IsRun(Next, s, FailedAttempt(c, given), AnyStep)
    ensures PutBack(s, Run(Next, s, FailedAttempt(c, given), AnyStep), c,
                    if given.Some? then given.value else s.ret.due)
  {
    var a := if given.Some? then given.value else s.ret.due;
    var s1, s2 := FirstCallerAsks(s, c, a);
    assert Next(s, Begin(c, given)) == s1;
    RefusedThenLetsGo(s2, c, a, s.ledger.payment.amount);
    var rest := [Ledger(L.Refuse(c))] + ([Ledger(L.Release(c))] + ([Refused(c)] + ([LetGo(c)] + [])));
    StepThenRun(Next, s1, Ask(c), rest, AnyStep);
    StepThenRun(Next, s, Begin(c, given), [Ask(c)] + rest, AnyStep);
  }
}
