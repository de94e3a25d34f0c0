/** Safety of the refund ledger over every interleaving, and exact accounting under its operating assumptions. */
module RefundProofs {
  import opened Results
  import opened Runs
  import opened MapSums
  import opened RefundLedger

  // ---------------------------------------------------------------------------
  // Without assumptions: bounds, stable amounts, success only after execution
  // ---------------------------------------------------------------------------

  predicate InBounds(p: Payment) {
    0 <= p.refunded && 0 <= p.pending && p.refunded + p.pending <= p.amount
  }

  ghost predicate RowsOk(l: Ledger) {
    forall k :: k in l.requests ==>
      && l.requests[k].amount > 0
      && (l.requests[k].refundId.Some? ==> k in l.provider && l.provider[k].id == l.requests[k].refundId.value)
      && (l.requests[k].status == Completed ==> l.requests[k].refundId.Some?)
  }

  /** Under one key the provider is only ever asked for one amount: the row's. */
  ghost predicate AmountsStable(l: Ledger) {
    forall k :: k in l.provider ==> k in l.requests && l.provider[k].amount == l.requests[k].amount
  }

  predicate PcOk(l: Ledger, pc: Pc) {
    match pc
    case Claimed(k, a, _) => k in l.requests && l.requests[k].amount == a
    case Errored(k, a, _) => k in l.requests && l.requests[k].amount == a
    case Executed(k, id) => k in l.requests && k in l.provider && l.provider[k].id == id
    case Returned(k) => k in l.provider
    case Raised => true
  }

  ghost predicate CallersOk(l: Ledger) {
    forall c :: c in l.callers ==> PcOk(l, l.callers[c])
  }

  /** Rows, callers and provider tell one story; the payment's own figures do not come into it. */
  ghost predicate Consistent(l: Ledger) {
    RowsOk(l) && AmountsStable(l) && CallersOk(l)
  }

  ghost predicate Sound(l: Ledger) {
    InBounds(l.payment) && Consistent(l)
  }

  /** A claim either changes nothing but the caller, or reserves a row within what is still refundable. */
  lemma ClaimShape(l: Ledger, amount: Option<int>, key: Option<Key>)
    requires Consistent(l)
    ensures var (t, pc) := AfterClaim(l, amount, key);
            && (t == l || exists k, row ::
                  IsReservation(l, k, row) && t == Reserve(l, k, row) && pc == Claimed(k, row.amount, true))
            && PcOk(t, pc)
  {
    var (t, pc) := AfterClaim(l, amount, key);
    if t != l {
      var k := pc.key;
      var row := if k in l.requests then l.requests[k] else Request(pc.amount, InFlight, None);
      assert IsReservation(l, k, row) && t == Reserve(l, k, row);
    }
  }

  predicate IsReservation(l: Ledger, k: Key, row: Request) {
    && 0 < row.amount <= Refundable(l.payment)
    && if k in l.requests then row == l.requests[k] && row.status == Failed
       else row.refundId.None? && row.status == InFlight
  }

  lemma ReserveConsistent(l: Ledger, k: Key, row: Request)
    requires Consistent(l) && IsReservation(l, k, row)
    ensures Consistent(Reserve(l, k, row))
  {
    var t := Reserve(l, k, row);
    forall c | c in t.callers ensures PcOk(t, t.callers[c]) {
      assert PcOk(l, l.callers[c]);
    }
  }

  lemma SetCaller(l: Ledger, c: nat, pc: Pc)
    requires Consistent(l) && PcOk(l, pc)
    ensures Consistent(l.(callers := l.callers[c := pc]))
  {
    var t := l.(callers := l.callers[c := pc]);
    forall d | d in t.callers ensures PcOk(t, t.callers[d]) {
      assert d != c ==> PcOk(l, l.callers[d]);
    }
  }

  lemma ClaimConsistent(l: Ledger, c: nat, amount: Option<int>, key: Option<Key>)
    requires Consistent(l)
    ensures var (t, pc) := AfterClaim(l, amount, key);
            Consistent(t.(callers := l.callers[c := pc]))
  {
    var (t, pc) := AfterClaim(l, amount, key);
    ClaimShape(l, amount, key);
    if t != l {
      var k, row :| IsReservation(l, k, row) && t == Reserve(l, k, row) && pc == Claimed(k, row.amount, true);
      ReserveConsistent(l, k, row);
    }
    SetCaller(t, c, pc);
  }

  /** Creating a refund under a claimed key keeps amounts stable; the caller's amount is the row's. */
  lemma CreateConsistent(l: Ledger, k: Key, a: nat)
    requires Consistent(l) && k in l.requests && l.requests[k].amount == a
    ensures var (provider, id) := Create(l.provider, k, a);
            Consistent(l.(provider := provider)) && k in provider && provider[k].id == id
  {
    var t := l.(provider := Create(l.provider, k, a).0);
    forall c | c in t.callers ensures PcOk(t, t.callers[c]) {
      assert PcOk(l, l.callers[c]);
    }
  }

  lemma ReleaseConsistent(l: Ledger, k: Key, a: nat, reserved: bool)
    requires Consistent(l) && k in l.requests
    ensures Consistent(AfterRelease(l, k, a, reserved))
  {
    var t := AfterRelease(l, k, a, reserved);
    forall c | c in t.callers ensures PcOk(t, t.callers[c]) {
      assert PcOk(l, l.callers[c]);
    }
  }

  lemma CompleteConsistent(l: Ledger, k: Key, id: nat)
    requires Consistent(l) && k in l.requests && k in l.provider && l.provider[k].id == id
    ensures Consistent(AfterComplete(l, k, id))
  {
    var t := AfterComplete(l, k, id);
    forall c | c in t.callers ensures PcOk(t, t.callers[c]) {
      assert PcOk(l, l.callers[c]);
    }
  }

  lemma PaymentConsistent(l: Ledger, p: Payment)
    requires Consistent(l)
    ensures Consistent(l.(payment := p))
  {
    var t := l.(payment := p);
    forall c | c in t.callers ensures PcOk(t, t.callers[c]) {
      assert PcOk(l, l.callers[c]);
    }
  }

  lemma CallerStepConsistent(l: Ledger, step: Step)
    requires Consistent(l) && Enabled(l, step)
    requires step.Execute? || step.ExecuteUnheard? || step.Refuse? || step.Complete? || step.Release? || step.Crash?
    ensures Consistent(Next(l, step))
  {
    var pc := l.callers[step.c];
    assert PcOk(l, pc);
    match step
    case Execute(c) =>
      CreateConsistent(l, pc.key, pc.amount);
      var (provider, id) := Create(l.provider, pc.key, pc.amount);
      SetCaller(l.(provider := provider), c, Executed(pc.key, id));
    case ExecuteUnheard(c) =>
      CreateConsistent(l, pc.key, pc.amount);
      SetCaller(l.(provider := Create(l.provider, pc.key, pc.amount).0), c, Errored(pc.key, pc.amount, pc.reserved));
    case Refuse(c) => SetCaller(l, c, Errored(pc.key, pc.amount, pc.reserved));
    case Complete(c) =>
      CompleteConsistent(l, pc.key, pc.id);
      SetCaller(AfterComplete(l, pc.key, pc.id), c, Returned(pc.key));
    case Release(c) =>
      ReleaseConsistent(l, pc.key, pc.amount, pc.reserved);
      SetCaller(AfterRelease(l, pc.key, pc.amount, pc.reserved), c, Raised);
    case Crash(c) => SetCaller(l, c, Raised);
  }

  lemma StepConsistent(l: Ledger, step: Step)
    requires Consistent(l) && Enabled(l, step)
    ensures Consistent(Next(l, step)) && Next(l, step).payment.amount == l.payment.amount
  {
    match step
    case Claim(c, amount, key) => ClaimConsistent(l, c, amount, key);
    case Webhook(reported) => PaymentConsistent(l, AfterWebhook(l.payment, reported));
    case PaymentEvent(st) => PaymentConsistent(l, l.payment.(status := st));
    case OtherPaymentTakes(k) =>
      forall c | c in l.callers ensures PcOk(Next(l, step), l.callers[c]) {
        assert PcOk(l, l.callers[c]);
      }
    case _ => CallerStepConsistent(l, step);
  }

  // ---------------------------------------------------------------------------
  // Bounds: what they ask of the webhooks
  // ---------------------------------------------------------------------------

  /** The one thing asked of the environment: no webhook reports more refunded than was charged. */
  predicate ReportsWithinCharge(l: Ledger, step: Step) {
    step.Webhook? && step.reported.Some? ==> step.reported.value.0 <= l.payment.amount
  }

  /** From a sound ledger, nothing but a webhook that reports more than was charged breaks the bounds. */
  lemma StepInBoundsIff(l: Ledger, step: Step)
    requires Sound(l) && Enabled(l, step)
    ensures InBounds(Next(l, step).payment) <==> ReportsWithinCharge(l, step)
  {
    if step.Claim? {
      ClaimShape(l, step.amount, step.key);
    }
  }

  lemma StepSound(l: Ledger, step: Step)
    requires Sound(l) && Enabled(l, step) && ReportsWithinCharge(l, step)
    ensures Sound(Next(l, step)) && Next(l, step).payment.amount == l.payment.amount
  {
    StepConsistent(l, step);
    StepInBoundsIff(l, step);
  }

  lemma {:induction false} RunSound(l: Ledger, steps: seq<Step>)
    requires Sound(l) && IsRun(Next, l, steps, ReportsWithinCharge)
    ensures var t := Run(Next, l, steps, ReportsWithinCharge);
            Sound(t) && t.payment.amount == l.payment.amount
    decreases |steps|
  {
    if steps != [] {
      StepSound(l, steps[0]);
      RunSound(Next(l, steps[0]), steps[1..]);
    }
  }

  /**
   Any interleaving of callers, crashes, lost responses, provider failures and duplicated, stale or re-ordered
   webhooks: refunded and pending stay non-negative and together within the payment; a key never reaches the
   provider with two amounts; and a caller is told of success only when the refund exists.
   */
  lemma LedgerAlwaysInBounds(amount: nat, steps: seq<Step>)
    requires IsRun(Next, NewLedger(amount), steps, ReportsWithinCharge)
    ensures var l := Run(Next, NewLedger(amount), steps, ReportsWithinCharge);
            && 0 <= l.payment.refunded && 0 <= l.payment.pending
            && l.payment.refunded + l.payment.pending <= amount
            && AmountsStable(l)
            && forall c :: c in l.callers && l.callers[c].Returned? ==> l.callers[c].key in l.provider
  {
    var l0 := NewLedger(amount);
    RunSound(l0, steps);
    var l := Run(Next, l0, steps, ReportsWithinCharge);
    forall c | c in l.callers && l.callers[c].Returned? ensures l.callers[c].key in l.provider {
      assert PcOk(l, l.callers[c]);
    }
  }
}
