/**
 The refund ledger's books: what keeps the provider's refunds within the payment, what more keeps the books exact,
 and exactly when a single step does.
 */
module RefundAccounting {
  import opened Results
  import opened Runs
  import opened MapSums
  import opened RefundLedger
  import opened RefundProofs

  /** Nothing requested and still standing is missing from refunded and pending together. */
  ghost predicate Covered(l: Ledger) {
    LiveTotal(l) <= l.payment.refunded + l.payment.pending
  }

  /** Refunded and pending together are exactly what was requested and has not failed. */
  ghost predicate BooksExact(l: Ledger) {
    l.payment.refunded + l.payment.pending == LiveTotal(l)
  }

  /** A FAILED row was never executed. */
  ghost predicate FailedNeverExecuted(l: Ledger) {
    forall k :: k in l.provider && k in l.requests ==> l.requests[k].status != Failed
  }

  /** A live caller works on an in-flight row; the one that reserved it has not reached the provider yet. */
  ghost predicate LiveCallersOwnRows(l: Ledger) {
    forall c :: c in l.callers && Live(l.callers[c]) ==>
      && l.callers[c].key in l.requests
      && l.requests[l.callers[c].key].status == InFlight
      && (!l.callers[c].Executed? && l.callers[c].reserved ==> l.callers[c].key !in l.provider)
  }

  ghost predicate OneLiveCallerAKey(l: Ledger) {
    forall c, d :: c in l.callers && d in l.callers && c != d && Live(l.callers[c]) && Live(l.callers[d]) ==>
      l.callers[c].key != l.callers[d].key
  }

  ghost predicate Guarded(l: Ledger) {
    && Consistent(l) && Covered(l) && LiveTotal(l) <= l.payment.amount
    && FailedNeverExecuted(l) && LiveCallersOwnRows(l) && OneLiveCallerAKey(l)
  }

  ghost predicate Exact(l: Ledger) {
    Guarded(l) && BooksExact(l) && l.payment.refunded <= ProviderTotal(l)
  }

  predicate KeyIsFree(l: Ledger, k: Key) {
    forall c :: c in l.callers && Live(l.callers[c]) ==> l.callers[c].key != k
  }

  /** A claim does not join a key that another live caller is working on. */
  predicate ClaimsAlone(l: Ledger, step: Step) {
    step.Claim? ==>
      var pc := AfterClaim(l, step.amount, step.key).1;
      pc.Claimed? ==> KeyIsFree(l, pc.key)
  }

  /** One live caller a key, and a provider error means nothing was refunded; webhooks may say what they like. */
  predicate Safe(l: Ledger, step: Step) {
    ClaimsAlone(l, step) && !step.ExecuteUnheard?
  }

  /** The operating assumptions for exact books: webhooks also carry amounts, and only ones refunded by then. */
  ghost predicate Careful(l: Ledger, step: Step) {
    && ClaimsAlone(l, step) && !step.ExecuteUnheard?
    && (step.Webhook? ==> step.reported.Some? && step.reported.value.0 <= ProviderTotal(l))
  }

  // ---------------------------------------------------------------------------
  // Totals
  // ---------------------------------------------------------------------------

  /** What the provider holds is covered, key by key, by rows that have not failed. */
  lemma ProviderWithinLive(l: Ledger)
    requires Consistent(l) && FailedNeverExecuted(l)
    ensures ProviderTotal(l) <= LiveTotal(l)
  {
    SumMapDominated(l.provider, RefundAmount(), l.requests, LiveAmount());
  }

  lemma ProviderWithinLiveLess(l: Ledger, k: Key)
    requires Consistent(l) && FailedNeverExecuted(l)
    requires k in l.requests && k !in l.provider && l.requests[k].status != Failed
    ensures ProviderTotal(l) + l.requests[k].amount <= LiveTotal(l)
  {
    SumMapRoom(l.provider, RefundAmount(), l.requests, LiveAmount(), k);
  }

  lemma ReserveTotal(l: Ledger, k: Key, row: Request)
    requires IsReservation(l, k, row)
    ensures LiveTotal(Reserve(l, k, row)) == LiveTotal(l) + row.amount
  {
    if k in l.requests {
      SumMapUpdate(l.requests, LiveAmount(), k, row.(status := InFlight));
    } else {
      SumMapInsert(l.requests, LiveAmount(), k, row.(status := InFlight));
    }
  }

  lemma RowTotal(l: Ledger, k: Key, row: Request)
    requires k in l.requests
    ensures SumMap(l.requests[k := row], LiveAmount()) == LiveTotal(l) - LiveAmount()(l.requests[k]) + LiveAmount()(row)
  {
    SumMapUpdate(l.requests, LiveAmount(), k, row);
  }

  // ---------------------------------------------------------------------------
  // Each kind of step, guarded
  // ---------------------------------------------------------------------------

  lemma NewIsExact(amount: nat)
    ensures Exact(NewLedger(amount))
  {
  }

  /** A caller that takes up a free key, or ends, disturbs nobody. */
  lemma SetCallerGuarded(l: Ledger, c: nat, pc: Pc)
    requires Guarded(l) && PcOk(l, pc) && !(c in l.callers && Live(l.callers[c]))
    requires Live(pc) ==>
               && pc.Claimed? && KeyIsFree(l, pc.key) && l.requests[pc.key].status == InFlight
               && (pc.reserved ==> pc.key !in l.provider)
    ensures Guarded(l.(callers := l.callers[c := pc]))
  {
    SetCaller(l, c, pc);
  }

  lemma ReserveGuarded(l: Ledger, k: Key, row: Request)
    requires Guarded(l) && IsReservation(l, k, row) && KeyIsFree(l, k)
    ensures Guarded(Reserve(l, k, row)) && KeyIsFree(Reserve(l, k, row), k)
  {
    ReserveConsistent(l, k, row);
    ReserveTotal(l, k, row);
  }

  lemma ClaimGuarded(l: Ledger, step: Step)
    requires Guarded(l) && step.Claim? && Enabled(l, step) && ClaimsAlone(l, step)
    ensures Guarded(Next(l, step))
  {
    var (t, pc) := AfterClaim(l, step.amount, step.key);
    ClaimShape(l, step.amount, step.key);
    if t != l {
      var k, row :| IsReservation(l, k, row) && t == Reserve(l, k, row) && pc == Claimed(k, row.amount, true);
      ReserveGuarded(l, k, row);
    }
    SetCallerGuarded(t, step.c, pc);
  }

  lemma ExecuteGuarded(l: Ledger, step: Step)
    requires Guarded(l) && step.Execute? && Enabled(l, step)
    ensures Guarded(Next(l, step))
  {
    CallerStepConsistent(l, step);
  }

  lemma CompleteGuarded(l: Ledger, step: Step)
    requires Guarded(l) && step.Complete? && Enabled(l, step)
    ensures Guarded(Next(l, step))
  {
    CallerStepConsistent(l, step);
    var pc := l.callers[step.c];
    RowTotal(l, pc.key, l.requests[pc.key].(status := Completed, refundId := Some(pc.id)));
  }

  lemma ReleaseGuarded(l: Ledger, step: Step)
    requires Guarded(l) && step.Release? && Enabled(l, step)
    ensures Guarded(Next(l, step))
  {
    CallerStepConsistent(l, step);
    if l.callers[step.c].reserved {
      ReleaseReservedGuarded(l, step.c);
    }
  }

  lemma ReleaseReservedGuarded(l: Ledger, c: nat)
    requires Guarded(l) && Enabled(l, Release(c)) && l.callers[c].reserved && Consistent(Next(l, Release(c)))
    ensures Guarded(Next(l, Release(c)))
  {
    var pc := l.callers[c];
    assert PcOk(l, pc);
    RowTotal(l, pc.key, l.requests[pc.key].(status := Failed));
  }

  /** A refusal, a crash, a webhook or another payment's key makes no promise and forgets none. */
  lemma QuietGuarded(l: Ledger, step: Step)
    requires Guarded(l) && Enabled(l, step)
    requires step.Refuse? || step.Crash? || step.PaymentEvent? || step.OtherPaymentTakes? || step.Webhook?
    ensures Guarded(Next(l, step))
  {
    StepConsistent(l, step);
  }

  lemma StepGuarded(l: Ledger, step: Step)
    requires Guarded(l) && Enabled(l, step) && Safe(l, step)
    ensures Guarded(Next(l, step)) && Next(l, step).payment.amount == l.payment.amount
  {
    match step
    case Claim(_, _, _) => ClaimGuarded(l, step);
    case Execute(_) => ExecuteGuarded(l, step);
    case Complete(_) => CompleteGuarded(l, step);
    case Release(_) => ReleaseGuarded(l, step);
    case _ => QuietGuarded(l, step);
  }

  lemma {:induction false} RunGuarded(l: Ledger, steps: seq<Step>, ok: (Ledger, Step) -> bool)
    requires forall v: Ledger, step: Step :: ok(v, step) ==> Safe(v, step)
    requires Guarded(l) && IsRun(Next, l, steps, ok)
    ensures Guarded(Run(Next, l, steps, ok)) && Run(Next, l, steps, ok).payment.amount == l.payment.amount
    decreases |steps|
  {
    if steps != [] {
      StepGuarded(l, steps[0]);
      RunGuarded(Next(l, steps[0]), steps[1..], ok);
    }
  }

  lemma GuardedStaysWithin(l: Ledger)
    requires Guarded(l)
    ensures ProviderTotal(l) <= l.payment.amount
  {
    ProviderWithinLive(l);
  }

  /**
   Refunds never exceed the payment: it takes one live caller a key and errors that mean nothing was refunded,
   and holds whatever webhooks report, more than was charged included.
   */
  lemma NeverOverRefunds(amount: nat, steps: seq<Step>)
    requires IsRun(Next, NewLedger(amount), steps, Safe)
    ensures ProviderTotal(Run(Next, NewLedger(amount), steps, Safe)) <= amount
  {
    NewIsExact(amount);
    RunGuarded(NewLedger(amount), steps, Safe);
    GuardedStaysWithin(Run(Next, NewLedger(amount), steps, Safe));
  }

  // ---------------------------------------------------------------------------
  // Exactly when one step keeps the books
  // ---------------------------------------------------------------------------

  function Reported(l: Ledger, reported: Option<(nat, nat)>): nat {
    if reported.Some? then reported.value.0 else l.payment.amount
  }

  /**
   The only steps that can break exact books: a webhook that reports more than is refunded or pending, a release
   whose row no longer counts or whose amount is no longer pending, and the completion of a FAILED row.
   */
  predicate KeepsBooks(l: Ledger, step: Step)
    requires Enabled(l, step)
  {
    match step
    case Webhook(reported) => Reported(l, reported) <= l.payment.refunded + l.payment.pending
    case Release(c) =>
      var pc := l.callers[c];
      pc.reserved ==>
        if l.requests[pc.key].status == Failed then l.payment.pending == 0 else pc.amount <= l.payment.pending
    case Complete(c) => l.requests[l.callers[c].key].status != Failed
    case _ => true
  }

  lemma WebhookKeepsBooksIff(l: Ledger, reported: Option<(nat, nat)>)
    requires BooksExact(l)
    ensures BooksExact(Next(l, Webhook(reported))) <==>
            Reported(l, reported) <= l.payment.refunded + l.payment.pending
  {
  }

  lemma ReleaseKeepsBooksIff(l: Ledger, k: Key)
    requires Consistent(l) && BooksExact(l) && k in l.requests
    ensures BooksExact(AfterRelease(l, k, l.requests[k].amount, true)) <==>
            if l.requests[k].status == Failed then l.payment.pending == 0
            else l.requests[k].amount <= l.payment.pending
  {
    RowTotal(l, k, l.requests[k].(status := Failed));
  }

  lemma CompleteKeepsBooksIff(l: Ledger, k: Key, id: nat)
    requires Consistent(l) && BooksExact(l) && k in l.requests
    ensures BooksExact(AfterComplete(l, k, id)) <==> l.requests[k].status != Failed
  {
    RowTotal(l, k, l.requests[k].(status := Completed, refundId := Some(id)));
  }

  lemma ClaimKeepsBooks(l: Ledger, amount: Option<int>, key: Option<Key>)
    requires Consistent(l) && BooksExact(l)
    ensures BooksExact(AfterClaim(l, amount, key).0)
  {
    var (t, pc) := AfterClaim(l, amount, key);
    ClaimShape(l, amount, key);
    if t != l {
      var k, row :| IsReservation(l, k, row) && t == Reserve(l, k, row) && pc == Claimed(k, row.amount, true);
      ReserveTotal(l, k, row);
    }
  }

  /** Of all steps, from exact books, with any callers at work. */
  lemma StepKeepsBooksIff(l: Ledger, step: Step)
    requires Consistent(l) && BooksExact(l) && Enabled(l, step)
    ensures BooksExact(Next(l, step)) <==> KeepsBooks(l, step)
  {
    match step
    case Claim(_, amount, key) => ClaimKeepsBooks(l, amount, key);
    case Webhook(reported) => WebhookKeepsBooksIff(l, reported);
    case Release(c) =>
      assert PcOk(l, l.callers[c]);
      ReleaseKeepsBooksIff(l, l.callers[c].key);
    case Complete(c) => CompleteKeepsBooksIff(l, l.callers[c].key, l.callers[c].id);
    case _ =>
  }

  // ---------------------------------------------------------------------------
  // Exact books along careful runs
  // ---------------------------------------------------------------------------

  /** The reserving caller's release takes back exactly what it reserved: the clamp does not bite. */
  lemma ReleaseFits(l: Ledger, c: nat)
    requires Exact(l) && c in l.callers && l.callers[c].Errored? && l.callers[c].reserved
    ensures l.callers[c].amount <= l.payment.pending
  {
    assert PcOk(l, l.callers[c]);
    ProviderWithinLiveLess(l, l.callers[c].key);
  }

  lemma CarefulKeepsBooks(l: Ledger, step: Step)
    requires Exact(l) && Enabled(l, step) && Careful(l, step)
    ensures KeepsBooks(l, step)
  {
    match step
    case Webhook(_) => ProviderWithinLive(l);
    case Release(c) =>
      if l.callers[c].reserved {
        ReleaseFits(l, c);
      }
    case _ =>
  }

  /** The provider's total never falls. */
  lemma ProviderOnlyGrows(l: Ledger, step: Step)
    requires Consistent(l) && Enabled(l, step)
    ensures ProviderTotal(l) <= ProviderTotal(Next(l, step))
  {
    if step.Execute? || step.ExecuteUnheard? {
      var pc := l.callers[step.c];
      if pc.key !in l.provider {
        SumMapInsert(l.provider, RefundAmount(), pc.key, Refund(|l.provider|, pc.amount));
      }
    }
  }

  lemma StepExact(l: Ledger, step: Step)
    requires Exact(l) && Enabled(l, step) && Careful(l, step)
    ensures Exact(Next(l, step)) && Next(l, step).payment.amount == l.payment.amount
  {
    StepGuarded(l, step);
    CarefulKeepsBooks(l, step);
    StepKeepsBooksIff(l, step);
    ProviderOnlyGrows(l, step);
  }

  lemma {:induction false} RunExact(l: Ledger, steps: seq<Step>, ok: (Ledger, Step) -> bool)
    requires forall v: Ledger, step: Step :: ok(v, step) ==> Careful(v, step)
    requires Exact(l) && IsRun(Next, l, steps, ok)
    ensures Exact(Run(Next, l, steps, ok)) && Run(Next, l, steps, ok).payment.amount == l.payment.amount
    decreases |steps|
  {
    if steps != [] {
      StepExact(l, steps[0]);
      RunExact(Next(l, steps[0]), steps[1..], ok);
    }
  }

  /**
   Along every careful run the books are exact, a FAILED row was never executed, and the provider has refunded no
   more than was requested, which is no more than the payment.
   */
  lemma AccountingIsExact(amount: nat, steps: seq<Step>)
    requires IsRun(Next, NewLedger(amount), steps, Careful)
    ensures var l := Run(Next, NewLedger(amount), steps, Careful);
            && l.payment.refunded + l.payment.pending == LiveTotal(l)
            && FailedNeverExecuted(l)
            && l.payment.refunded <= ProviderTotal(l) <= LiveTotal(l) <= amount
  {
    NewIsExact(amount);
    RunExact(NewLedger(amount), steps, Careful);
    ProviderWithinLive(Run(Next, NewLedger(amount), steps, Careful));
  }

  /** After every careful run neither `max(0, ..)` of the next careful step changes anything. */
  lemma ClampsNeverBite(amount: nat, steps: seq<Step>, step: Step)
    requires IsRun(Next, NewLedger(amount), steps, Careful)
    requires var l := Run(Next, NewLedger(amount), steps, Careful); Enabled(l, step) && Careful(l, step)
    ensures var l := Run(Next, NewLedger(amount), steps, Careful);
            && (step.Webhook? ==> step.reported.value.0 - l.payment.refunded <= l.payment.pending)
            && (step.Release? && l.callers[step.c].reserved ==> l.callers[step.c].amount <= l.payment.pending)
  {
    NewIsExact(amount);
    RunExact(NewLedger(amount), steps, Careful);
    var l := Run(Next, NewLedger(amount), steps, Careful);
    if step.Webhook? {
      ProviderWithinLive(l);
    } else if step.Release? && l.callers[step.c].reserved {
      ReleaseFits(l, step.c);
    }
  }
}
