/** What a resolved dispute says about its refund, over every interleaving, and when a refund can go unrecorded. */
module DisputeProofs {
  import opened Results
  import opened Runs
  import opened Disputes
  import L = RefundLedger
  import LP = RefundProofs

  // ---------------------------------------------------------------------------
  // The ledger underneath
  // ---------------------------------------------------------------------------

  /** The provider forgets nothing. */
  lemma ProviderKept(l: L.Ledger, step: L.Step, k: L.Key)
    requires L.Enabled(l, step) && k in l.provider
    ensures k in L.Next(l, step).provider && L.Next(l, step).provider[k] == l.provider[k]
  {
  }

  /** Only the caller of a key creates its refund. */
  lemma ProviderGrowth(l: L.Ledger, step: L.Step, k: L.Key)
    requires L.Enabled(l, step) && k !in l.provider && k in L.Next(l, step).provider
    ensures step.Execute? || step.ExecuteUnheard?
    ensures l.callers[step.c].key == k
  {
  }

  // ---------------------------------------------------------------------------
  // Without assumptions on the callers
  // ---------------------------------------------------------------------------

  predicate Executed(s: System) {
    RefundKey(s) in s.ledger.provider
  }

  predicate RefundedAs(s: System, id: nat) {
    RefundKey(s) in s.ledger.provider && s.ledger.provider[RefundKey(s)].id == id
  }

  predicate ClaimComplete(d: Dispute) {
    d.status == RESOLVING ==> d.outcome.Some? && (IsRefund(d.outcome.value) ==> d.amount.Some?)
  }

  /** The dispute's refund exists and is on file. */
  predicate Filed(s: System) {
    RefundKey(s) in s.ledger.provider && s.ledger.provider[RefundKey(s)].id in s.records
  }

  ghost predicate Inv(s: System) {
    && LP.Consistent(s.ledger)
    && ClaimComplete(s.dispute)
    && (forall id :: id in s.records && id !in s.byHand ==> RefundedAs(s, id))
    && (ResolvedWithRefund(s.dispute) ==> Filed(s))
  }

  lemma LedgerInv(s: System, ls: L.Step)
    requires Inv(s) && L.Enabled(s.ledger, ls)
    ensures Inv(s.(ledger := L.Next(s.ledger, ls)))
  {
    LP.StepConsistent(s.ledger, ls);
    var t := s.(ledger := L.Next(s.ledger, ls));
    if Executed(s) {
      ProviderKept(s.ledger, ls, RefundKey(s));
    }
    forall id | id in t.records && id !in t.byHand ensures RefundedAs(t, id) {
      assert RefundedAs(s, id);
    }
  }

  lemma FinishInv(s: System, c: nat)
    requires Inv(s) && Enabled(s, Finish(c))
    ensures Inv(Next(s, Finish(c)))
  {
    var pc := s.callers[c];
    var done := AfterFinish(s.dispute, s.records, pc.outcome, pc.refund, Row(s.ledger, RefundKey(s)));
    if done.Some? && s.dispute.status != RESOLVED && IsRefund(pc.outcome) {
      var id := s.ledger.requests[RefundKey(s)].refundId.value;
      assert RefundedAs(s, id) && id in done.value.1;
    }
  }

  lemma StepInv(s: System, step: Step)
    requires Inv(s) && Enabled(s, step)
    ensures Inv(Next(s, step))
  {
    match step
    case CallRefund(c) => LedgerInv(s, L.Claim(c, Some(s.callers[c].amount), Some(RefundKey(s))));
    case Crash(c) =>
      if BusyInLedger(s, c) {
        LedgerInv(s, L.Crash(c));
      }
    case Ledger(ls) => LedgerInv(s, ls);
    case Finish(c) => FinishInv(s, c);
    case _ =>
  }

  lemma {:induction false} RunInv(s: System, steps: seq<Step>, ok: (System, Step) -> bool)
    requires Inv(s) && IsRun(Next, s, steps, ok)
    ensures Inv(Run(Next, s, steps, ok))
    decreases |steps|
  {
    if steps != [] {
      StepInv(s, steps[0]);
      RunInv(Next(s, steps[0]), steps[1..], ok);
    }
  }

  /**
   Under any interleaving of resolvers, parties, sweeps, crashes, hand-made records and other ledger users: of refunds
   filed by resolution there is at most one, it is the one the provider made under the dispute's key, and a dispute
   RESOLVED with a refund has that refund filed.
   */
  lemma ResolvedRefundIsFiled(amount: nat, id: nat, subtotal: nat, steps: seq<Step>)
    requires IsRun(Next, NewSystem(amount, id, subtotal), steps, AnyStep)
    ensures var s := Run(Next, NewSystem(amount, id, subtotal), steps, AnyStep);
            && (forall i :: i in s.records && i !in s.byHand ==> RefundedAs(s, i))
            && (forall i, j :: i in s.records && j in s.records && i !in s.byHand && j !in s.byHand ==> i == j)
            && (ResolvedWithRefund(s.dispute) ==> Filed(s))
            && ClaimComplete(s.dispute)
  {
    RunInv(NewSystem(amount, id, subtotal), steps, AnyStep);
  }

  // ---------------------------------------------------------------------------
  // With one resolver at a time, errors that mean nothing was refunded, and an undisturbed claim
  // ---------------------------------------------------------------------------

  predicate Claiming(d: Dispute) {
    d.status == RESOLVING || d.status == RESOLVED
  }

  /** Where a resolver's call of `initiate_refund` stands. */
  predicate LedgerFits(s: System, pc: L.Pc, mine: bool) {
    match pc
    case Claimed(k, _, _) => k == RefundKey(s) && (mine ==> !Executed(s))
    case Errored(k, _, _) => k == RefundKey(s) && (mine ==> !Executed(s))
    case Executed(k, _) => k == RefundKey(s)
    case Returned(k) => k == RefundKey(s)
    case Raised => mine ==> !Executed(s)
  }

  /** A live resolver works on the standing claim; the one that made it has not reached the provider before. */
  predicate BusyFits(s: System, c: nat)
    requires c in s.callers
  {
    && s.dispute.status == RESOLVING && s.dispute.outcome.Some?
    && match s.callers[c]
       case ToRefund(o, _, mine) =>
         IsRefund(s.dispute.outcome.value) && o == s.dispute.outcome.value && (mine ==> !Executed(s))
       case Refunding(o, _, mine) =>
         && IsRefund(s.dispute.outcome.value) && o == s.dispute.outcome.value
         && c in s.ledger.callers
         && LedgerFits(s, s.ledger.callers[c], mine)
       case ToFinish(o, _) => o == s.dispute.outcome.value && (IsRefund(o) ==> Executed(s))
       case Failed(mine) => mine ==> !Executed(s)
       case _ => true
  }

  ghost predicate BusiesFit(s: System) {
    forall c :: Busy(s, c) ==> BusyFits(s, c)
  }

  ghost predicate Alone(s: System) {
    forall c, d :: Busy(s, c) && Busy(s, d) ==> c == d
  }

  /** Whoever is in the ledger with the dispute's key is a resolver. */
  ghost predicate KeyIsOurs(s: System) {
    forall e :: BusyInLedger(s, e) && s.ledger.callers[e].key == RefundKey(s) ==>
      e in s.callers && s.callers[e].Refunding?
  }

  /** An executed refund has a standing claim, or a resolution, that is a refund. */
  predicate ExecutedIsClaimed(s: System) {
    Executed(s) ==> Claiming(s.dispute) && s.dispute.outcome.Some? && IsRefund(s.dispute.outcome.value)
  }

  ghost predicate Orderly(s: System) {
    Inv(s) && BusiesFit(s) && Alone(s) && KeyIsOurs(s) && ExecutedIsClaimed(s)
  }

  /** The provider refunds the dispute but answers with an error. */
  predicate HidesRefund(s: System, ls: L.Step) {
    ls.ExecuteUnheard? && BusyInLedger(s, ls.c) && s.ledger.callers[ls.c].key == RefundKey(s)
  }

  /** A resolver's call raises although the provider has refunded. */
  predicate RaisesLate(s: System, ls: L.Step) {
    && ls.Crash? && BusyInLedger(s, ls.c)
    && s.ledger.callers[ls.c].Executed? && s.ledger.callers[ls.c].key == RefundKey(s)
  }

  ghost predicate Careful(s: System, step: Step) {
    match step
    case Resolve(_, _, _) => forall d :: d in s.callers ==> !Busy(s, d)
    case Escalate => !Claiming(s.dispute)
    case Close => !Claiming(s.dispute)
    case SweepWrites => !Claiming(s.dispute)
    case Ledger(ls) => !HidesRefund(s, ls) && !RaisesLate(s, ls)
    case _ => true
  }

  /** A step of the one live resolver leaves at most that resolver live. */
  lemma OnlyOneMoves(s: System, t: System, c: nat)
    requires Orderly(s) && Busy(s, c) && c in t.callers && t.callers == s.callers[c := t.callers[c]]
    requires Busy(t, c) ==> BusyFits(t, c)
    ensures BusiesFit(t) && Alone(t)
  {
    forall d | Busy(t, d) ensures d == c {
      assert d != c ==> Busy(s, d);
    }
  }

  /** Nobody resolves, so nobody is in the ledger with the dispute's key either. */
  lemma NobodyInLedger(s: System)
    requires Orderly(s) && forall d :: !Busy(s, d)
    ensures forall e :: BusyInLedger(s, e) ==> s.ledger.callers[e].key != RefundKey(s)
  {
    forall e | BusyInLedger(s, e) ensures s.ledger.callers[e].key != RefundKey(s) {
      assert s.ledger.callers[e].key == RefundKey(s) ==> Busy(s, e);
    }
  }

  lemma ResolveOrderly(s: System, c: nat, outcome: Outcome, given: Option<nat>)
    requires Orderly(s) && Enabled(s, Resolve(c, outcome, given)) && Careful(s, Resolve(c, outcome, given))
    ensures Orderly(Next(s, Resolve(c, outcome, given)))
  {
    StepInv(s, Resolve(c, outcome, given));
    NobodyInLedger(s);
    var t := Next(s, Resolve(c, outcome, given));
    forall d | Busy(t, d) ensures d == c {
      assert d != c ==> Busy(s, d);
    }
    forall e | BusyInLedger(t, e) ensures t.ledger.callers[e].key != RefundKey(t) {
      assert BusyInLedger(s, e);
    }
  }

  lemma CallRefundOrderly(s: System, c: nat)
    requires Orderly(s) && Enabled(s, CallRefund(c))
    ensures Orderly(Next(s, CallRefund(c)))
  {
    StepInv(s, CallRefund(c));
    assert Busy(s, c) && BusyFits(s, c);
    var t := Next(s, CallRefund(c));
    OnlyOneMoves(s, t, c);
    forall e | BusyInLedger(t, e) && t.ledger.callers[e].key == RefundKey(t) ensures e == c {
      assert e != c ==> BusyInLedger(s, e) && Busy(s, e);
    }
  }

  lemma AnswerOrderly(s: System, step: Step)
    requires Orderly(s) && Enabled(s, step) && (step.RefundReturned? || step.RefundRaised?)
    ensures Orderly(Next(s, step))
  {
    StepInv(s, step);
    assert Busy(s, step.c) && BusyFits(s, step.c);
    assert LP.PcOk(s.ledger, s.ledger.callers[step.c]);
    var t := Next(s, step);
    OnlyOneMoves(s, t, step.c);
    forall e | BusyInLedger(t, e) && t.ledger.callers[e].key == RefundKey(t) ensures t.callers[e].Refunding? {
      assert BusyInLedger(s, e);
    }
  }

  lemma EndFits(s: System, step: Step)
    requires Orderly(s) && Enabled(s, step) && (step.LetGo? || step.Finish? || step.Crash?)
    ensures Busy(s, step.c) && BusyFits(s, step.c)
    ensures !Busy(Next(s, step), step.c) && ExecutedIsClaimed(Next(s, step))
  {
    assert Busy(s, step.c) && BusyFits(s, step.c);
  }

  /** Ending takes nobody else's place in the ledger. */
  lemma EndKeepsKey(s: System, step: Step)
    requires Orderly(s) && Enabled(s, step) && (step.LetGo? || step.Finish? || step.Crash?)
    ensures KeyIsOurs(Next(s, step))
  {
    var t := Next(s, step);
    forall e | BusyInLedger(t, e) && t.ledger.callers[e].key == RefundKey(t)
      ensures e in t.callers && t.callers[e].Refunding?
    {
      assert BusyInLedger(s, e);
    }
  }

  lemma EndOrderly(s: System, step: Step)
    requires Orderly(s) && Enabled(s, step) && (step.LetGo? || step.Finish? || step.Crash?)
    ensures Orderly(Next(s, step))
  {
    StepInv(s, step);
    EndFits(s, step);
    EndKeepsKey(s, step);
    OnlyOneMoves(s, Next(s, step), step.c);
  }

  lemma StatusOrderly(s: System, step: Step)
    requires Orderly(s) && Enabled(s, step) && Careful(s, step)
    requires
      || step.Respond? || step.Escalate? || step.Close?
      || step.SweepSees? || step.SweepWrites? || step.RecordByHand?
    ensures Orderly(Next(s, step))
  {
    StepInv(s, step);
    var t := Next(s, step);
    forall c | Busy(t, c) ensures Busy(s, c) && BusyFits(s, c) {
    }
    forall e | BusyInLedger(t, e) && t.ledger.callers[e].key == RefundKey(t)
      ensures e in t.callers && t.callers[e].Refunding?
    {
      assert BusyInLedger(s, e);
    }
  }

  /** Only a resolver's own execution makes the dispute's refund. */
  lemma LedgerExecutes(s: System, ls: L.Step)
    requires Orderly(s) && Enabled(s, Ledger(ls)) && Careful(s, Ledger(ls))
    requires !Executed(s) && Executed(Next(s, Ledger(ls)))
    ensures ls.Execute? && Busy(s, ls.c) && s.callers[ls.c].Refunding? && BusyFits(s, ls.c)
  {
    ProviderGrowth(s.ledger, ls, RefundKey(s));
    assert BusyInLedger(s, ls.c);
  }

  lemma LedgerCallerKept(s: System, ls: L.Step, e: nat)
    requires Enabled(s, Ledger(ls))
    requires var t := Next(s, Ledger(ls)); BusyInLedger(t, e) && t.ledger.callers[e].key == RefundKey(s)
    ensures BusyInLedger(s, e) && s.ledger.callers[e].key == RefundKey(s)
  {
  }

  /** Whether the refund is executed changes only by the caller's own hand. */
  lemma ExecutedUnless(s: System, ls: L.Step, c: nat)
    requires Orderly(s) && Enabled(s, Ledger(ls)) && Careful(s, Ledger(ls)) && Busy(s, c)
    ensures Executed(s) ==> Executed(Next(s, Ledger(ls)))
    ensures !Executed(s) && Executed(Next(s, Ledger(ls))) ==> ls == L.Execute(c)
  {
    if Executed(s) {
      ProviderKept(s.ledger, ls, RefundKey(s));
    } else if Executed(Next(s, Ledger(ls))) {
      LedgerExecutes(s, ls);
    }
  }

  predicate ByCaller(ls: L.Step, c: nat) {
    match ls
    case Claim(d, _, _) => d == c
    case Execute(d) => d == c
    case ExecuteUnheard(d) => d == c
    case Refuse(d) => d == c
    case Complete(d) => d == c
    case Release(d) => d == c
    case Crash(d) => d == c
    case _ => false
  }

  lemma OthersLeaveCall(l: L.Ledger, ls: L.Step, c: nat)
    requires L.Enabled(l, ls) && !ByCaller(ls, c) && c in l.callers
    ensures c in L.Next(l, ls).callers && L.Next(l, ls).callers[c] == l.callers[c]
  {
  }

  lemma OwnCallFits(s: System, ls: L.Step, c: nat)
    requires Orderly(s) && Enabled(s, Ledger(ls)) && Careful(s, Ledger(ls)) && Busy(s, c) && s.callers[c].Refunding?
    requires ByCaller(ls, c) && BusyFits(s, c)
    ensures BusyFits(Next(s, Ledger(ls)), c)
  {
    ExecutedUnless(s, ls, c);
  }

  lemma LedgerCallFits(s: System, ls: L.Step, c: nat)
    requires Orderly(s) && Enabled(s, Ledger(ls)) && Careful(s, Ledger(ls)) && Busy(s, c) && s.callers[c].Refunding?
    ensures BusyFits(Next(s, Ledger(ls)), c)
  {
    assert BusyFits(s, c);
    if ByCaller(ls, c) {
      OwnCallFits(s, ls, c);
    } else {
      ExecutedUnless(s, ls, c);
      OthersLeaveCall(s.ledger, ls, c);
    }
  }

  lemma LedgerBusyFits(s: System, ls: L.Step, c: nat)
    requires Orderly(s) && Enabled(s, Ledger(ls)) && Careful(s, Ledger(ls)) && Busy(s, c)
    ensures BusyFits(Next(s, Ledger(ls)), c)
  {
    if s.callers[c].Refunding? {
      LedgerCallFits(s, ls, c);
    } else {
      assert BusyFits(s, c);
      ExecutedUnless(s, ls, c);
      assert ls.Execute? ==> BusyInLedger(s, ls.c);
    }
  }

  lemma LedgerOrderly(s: System, ls: L.Step)
    requires Orderly(s) && Enabled(s, Ledger(ls)) && Careful(s, Ledger(ls))
    ensures Orderly(Next(s, Ledger(ls)))
  {
    StepInv(s, Ledger(ls));
    var t := Next(s, Ledger(ls));
    if Executed(t) && !Executed(s) {
      LedgerExecutes(s, ls);
    }
    forall c | Busy(t, c) ensures Busy(s, c) && BusyFits(t, c) {
      assert Busy(s, c);
      LedgerBusyFits(s, ls, c);
    }
    forall e | BusyInLedger(t, e) && t.ledger.callers[e].key == RefundKey(t)
      ensures e in t.callers && t.callers[e].Refunding?
    {
      LedgerCallerKept(s, ls, e);
    }
  }

  lemma StepOrderly(s: System, step: Step)
    requires Orderly(s) && Enabled(s, step) && Careful(s, step)
    ensures Orderly(Next(s, step))
  {
    match step
    case Resolve(c, outcome, given) => ResolveOrderly(s, c, outcome, given);
    case CallRefund(c) => CallRefundOrderly(s, c);
    case RefundReturned(_) => AnswerOrderly(s, step);
    case RefundRaised(_) => AnswerOrderly(s, step);
    case LetGo(_) => EndOrderly(s, step);
    case Finish(_) => EndOrderly(s, step);
    case Crash(_) => EndOrderly(s, step);
    case Ledger(ls) => LedgerOrderly(s, ls);
    case _ => StatusOrderly(s, step);
  }

  lemma {:induction false} RunOrderly(s: System, steps: seq<Step>, ok: (System, Step) -> bool)
    requires forall v: System, step: Step :: ok(v, step) ==> Careful(v, step)
    requires Orderly(s) && IsRun(Next, s, steps, ok)
    ensures Orderly(Run(Next, s, steps, ok))
    decreases |steps|
  {
    if steps != [] {
      StepOrderly(s, steps[0]);
      RunOrderly(Next(s, steps[0]), steps[1..], ok);
    }
  }

  /** The dispute says a refund was made exactly when one was. */
  predicate Truthful(s: System) {
    s.dispute.status == RESOLVED ==> (Executed(s) <==> s.dispute.outcome.Some? && IsRefund(s.dispute.outcome.value))
  }

  /** Along every careful run a resolution is truthful, and no dispute outside a refund's claim has been refunded. */
  lemma CarefulResolutionsAreTruthful(amount: nat, id: nat, subtotal: nat, steps: seq<Step>)
    requires IsRun(Next, NewSystem(amount, id, subtotal), steps, Careful)
    ensures var s := Run(Next, NewSystem(amount, id, subtotal), steps, Careful);
            Truthful(s) && ExecutedIsClaimed(s)
  {
    RunOrderly(NewSystem(amount, id, subtotal), steps, Careful);
  }
}
