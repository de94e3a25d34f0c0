/** What one undisturbed call of `initiate_refund` does, exactly, and what a webhook does to the payment. */
module RefundOutcomes {
  import opened Results
  import opened Runs
  import opened RefundLedger
  import opened RefundProofs

  /** A call asks for `wanted` pence under key `k`: the amount and key given, else all that is left and the default. */
  predicate AsksFor(l: Ledger, amount: Option<int>, key: Option<Key>, wanted: int, k: Key) {
    && wanted == (if amount.Some? then amount.value else l.payment.amount - l.payment.refunded)
    && (key.Some? ==> k == key.value)
    && (key.None? && wanted > 0 ==> k == ByAmount(wanted))
  }

  predicate Free(l: Ledger, c: nat) {
    c in l.callers ==> l.callers[c].Returned? || l.callers[c].Raised?
  }

  /** No refund stands under `k` yet: none was requested, or the one that was has failed. */
  predicate Untried(l: Ledger, k: Key) {
    k in l.requests ==> l.requests[k].status == Failed
  }

  /** A key keeps the amount of its first request. */
  function AmountUnder(l: Ledger, k: Key, wanted: int): int {
    if k in l.requests then l.requests[k].amount else wanted
  }

  /** What is left of the payment once refunds made and promised are taken off. */
  predicate Affordable(l: Ledger, amount: int) {
    amount <= l.payment.amount - l.payment.refunded - l.payment.pending
  }

  /**
   A call is refused exactly when the payment is not open for refunds, nothing positive is asked for, the key is another
   payment's, or it would need to reserve more than is left; a refusal changes nothing.
   */
  lemma RefusedIff(l: Ledger, c: nat, amount: Option<int>, key: Option<Key>, wanted: int, k: Key)
    requires Free(l, c) && AsksFor(l, amount, key, wanted, k)
    ensures Enabled(l, Claim(c, amount, key))
    ensures var t := Next(l, Claim(c, amount, key));
            && (t.callers[c].Raised? <==>
                || l.payment.status !in {SUCCEEDED, PARTIALLY_REFUNDED} || wanted <= 0 || k in l.foreign
                || (Untried(l, k) && !Affordable(l, AmountUnder(l, k, wanted))))
            && (t.callers[c].Raised? ==> t == l.(callers := l.callers[c := Raised]))
  {
  }

  /** A repeated call of a completed refund returns at once; one of a refund in flight joins it: neither reserves. */
  lemma RepeatReservesNothing(l: Ledger, c: nat, amount: Option<int>, key: Option<Key>, wanted: int, k: Key)
    requires Free(l, c) && AsksFor(l, amount, key, wanted, k) && !Untried(l, k)
    requires !Next(l, Claim(c, amount, key)).callers[c].Raised?
    ensures Next(l, Claim(c, amount, key)) ==
            l.(callers := l.callers[c := if l.requests[k].status == Completed then Returned(k)
                                         else Claimed(k, l.requests[k].amount, false)])
  {
  }

  lemma ClaimReserves(l: Ledger, c: nat, amount: Option<int>, key: Option<Key>, wanted: int, k: Key)
    requires Consistent(l) && Free(l, c) && AsksFor(l, amount, key, wanted, k) && Untried(l, k)
    requires !Next(l, Claim(c, amount, key)).callers[c].Raised?
    ensures var (a, t) := (AmountUnder(l, k, wanted), Next(l, Claim(c, amount, key)));
            && a > 0
            && t.callers == l.callers[c := Claimed(k, a, true)]
            && t.requests == l.requests[k :=
                 Request(a, InFlight, if k in l.requests then l.requests[k].refundId else None)]
            && t.payment == l.payment.(pending := l.payment.pending + a)
            && t.provider == l.provider && t.foreign == l.foreign
  {
    assert k in l.requests ==> l.requests[k].amount > 0;
  }

  /** A call undisturbed, from claim to answer. */
  function Undisturbed(c: nat, amount: Option<int>, key: Option<Key>): seq<Step> {
    [Claim(c, amount, key)] + ([Execute(c)] + ([Complete(c)] + []))
  }

  lemma ExecutedAndCompleted(l: Ledger, c: nat, k: Key)
    requires c in l.callers && l.callers[c].Claimed? && l.callers[c].key == k && k in l.requests
    ensures Enabled(l, Execute(c)) && Enabled(Next(l, Execute(c)), Complete(c))
    ensures var (a, t) := (l.callers[c].amount, Next(Next(l, Execute(c)), Complete(c)));
            && t.provider == (if k in l.provider then l.provider else l.provider[k := Refund(|l.provider|, a)])
            && t.requests == l.requests[k := l.requests[k].(status := Completed, refundId := Some(t.provider[k].id))]
            && t.payment == l.payment && t.callers == l.callers[c := Returned(k)] && t.foreign == l.foreign
  {
    var t := Next(Next(l, Execute(c)), Complete(c));
    assert t.callers == l.callers[c := Returned(k)];
  }

  /**
   The provider has refunded `a` pence under `k`, by now or unheard before; the row is COMPLETED with the provider's id;
   exactly that amount has become pending; and nothing else has changed.
   */
  ghost predicate RefundedUnder(l: Ledger, t: Ledger, c: nat, k: Key, a: int) {
    && a > 0 && k in t.provider && t.provider[k].amount == a
    && t.provider == (if k in l.provider then l.provider else l.provider[k := Refund(|l.provider|, a)])
    && t.requests == l.requests[k := Request(a, Completed, Some(t.provider[k].id))]
    && t.payment == l.payment.(pending := l.payment.pending + a)
    && t.callers == l.callers[c := Returned(k)] && t.foreign == l.foreign
  }

  lemma GoesThrough(l: Ledger, c: nat, amount: Option<int>, key: Option<Key>, wanted: int, k: Key)
    returns (t1: Ledger, t2: Ledger, t3: Ledger)
    requires Consistent(l) && Free(l, c) && AsksFor(l, amount, key, wanted, k) && Untried(l, k)
    requires !Next(l, Claim(c, amount, key)).callers[c].Raised?
    ensures t1 == Next(l, Claim(c, amount, key))
    ensures Enabled(t1, Execute(c)) && t2 == Next(t1, Execute(c))
    ensures Enabled(t2, Complete(c)) && t3 == Next(t2, Complete(c))
    ensures RefundedUnder(l, t3, c, k, AmountUnder(l, k, wanted))
  {
    ClaimReserves(l, c, amount, key, wanted, k);
    t1 := Next(l, Claim(c, amount, key));
    assert k in l.provider ==> l.provider[k].amount == l.requests[k].amount;
    ExecutedAndCompleted(t1, c, k);
    t2 := Next(t1, Execute(c));
    t3 := Next(t2, Complete(c));
    assert t3.requests == l.requests[k := t3.requests[k]];
    assert t3.callers == l.callers[c := Returned(k)];
  }

  /**
   A call under a key without a standing refund, and not refused, refunds the key's amount: what was asked for, or what
   was asked for first.
   */
  lemma RefundGoesThrough(l: Ledger, c: nat, amount: Option<int>, key: Option<Key>, wanted: int, k: Key)
    requires Consistent(l) && Free(l, c) && AsksFor(l, amount, key, wanted, k) && Untried(l, k)
    requires !Next(l, Claim(c, amount, key)).callers[c].Raised?
    ensures IsRun(Next, l, Undisturbed(c, amount, key), AnyStep)
    ensures RefundedUnder(l, Run(Next, l, Undisturbed(c, amount, key), AnyStep), c, k, AmountUnder(l, k, wanted))
  {
    assert Enabled(l, Claim(c, amount, key));
    var t1, t2, t3 := GoesThrough(l, c, amount, key, wanted, k);
    ThreeSteps(Next, l, Claim(c, amount, key), t1, Execute(c), t2, Complete(c), t3, AnyStep);
  }

  /** A call the provider refuses. */
  function TurnedDown(c: nat, amount: Option<int>, key: Option<Key>): seq<Step> {
    [Claim(c, amount, key)] + ([Refuse(c)] + ([Release(c)] + []))
  }

  lemma RefusedAndReleased(l: Ledger, c: nat, k: Key) returns (u: Ledger, t: Ledger)
    requires c in l.callers && l.callers[c].Claimed? && l.callers[c].reserved
    requires l.callers[c].key == k && k in l.requests
    ensures Enabled(l, Refuse(c)) && u == Next(l, Refuse(c)) && Enabled(u, Release(c)) && t == Next(u, Release(c))
    ensures t.payment == l.payment.(pending := Max(0, l.payment.pending - l.callers[c].amount))
    ensures t.requests == l.requests[k := l.requests[k].(status := Failed)]
    ensures t.provider == l.provider && t.foreign == l.foreign && t.callers == l.callers[c := Raised]
  {
    u := Next(l, Refuse(c));
    t := Next(u, Release(c));
    assert t.callers == l.callers[c := Raised];
  }

  /** The payment and the provider are as before, and the row under `k` has failed at `a` pence: to be tried again. */
  ghost predicate Restored(l: Ledger, t: Ledger, c: nat, k: Key, a: int) {
    && t.payment == l.payment && t.provider == l.provider && t.foreign == l.foreign
    && t.requests.Keys == l.requests.Keys + {k}
    && (forall j :: j in l.requests && j != k ==> t.requests[j] == l.requests[j])
    && t.requests[k].status == Failed && t.requests[k].amount == a
    && t.callers == l.callers[c := Raised]
  }

  lemma TurnsBack(l: Ledger, c: nat, amount: Option<int>, key: Option<Key>, wanted: int, k: Key)
    returns (t1: Ledger, t2: Ledger, t3: Ledger)
    requires Consistent(l) && l.payment.pending >= 0
    requires Free(l, c) && AsksFor(l, amount, key, wanted, k) && Untried(l, k)
    requires !Next(l, Claim(c, amount, key)).callers[c].Raised?
    ensures t1 == Next(l, Claim(c, amount, key))
    ensures Enabled(t1, Refuse(c)) && t2 == Next(t1, Refuse(c))
    ensures Enabled(t2, Release(c)) && t3 == Next(t2, Release(c))
    ensures Restored(l, t3, c, k, AmountUnder(l, k, wanted))
  {
    ClaimReserves(l, c, amount, key, wanted, k);
    t1 := Next(l, Claim(c, amount, key));
    t2, t3 := RefusedAndReleased(t1, c, k);
    assert l.callers[c := Raised] == t1.callers[c := Raised];
  }

  /** When the provider refuses a refund, its reservation is undone exactly. */
  lemma RefusalUndone(l: Ledger, c: nat, amount: Option<int>, key: Option<Key>, wanted: int, k: Key)
    requires Consistent(l) && l.payment.pending >= 0
    requires Free(l, c) && AsksFor(l, amount, key, wanted, k) && Untried(l, k)
    requires !Next(l, Claim(c, amount, key)).callers[c].Raised?
    ensures IsRun(Next, l, TurnedDown(c, amount, key), AnyStep)
    ensures Restored(l, Run(Next, l, TurnedDown(c, amount, key), AnyStep), c, k, AmountUnder(l, k, wanted))
  {
    assert Enabled(l, Claim(c, amount, key));
    var t1, t2, t3 := TurnsBack(l, c, amount, key, wanted, k);
    ThreeSteps(Next, l, Claim(c, amount, key), t1, Refuse(c), t2, Release(c), t3, AnyStep);
  }

  // ---------------------------------------------------------------------------
  // handle_refund
  // ---------------------------------------------------------------------------

  /**
   A webhook's cumulative amount is what is refunded from then on; it comes out of what was pending, as far as that
   goes; the payment stays open exactly when the report is short of the charge; and a repeat changes nothing.
   */
  lemma WebhookIs(p: Payment, refunded: nat, charged: nat)
    requires p.pending >= 0
    ensures var t := AfterWebhook(p, Some((refunded, charged)));
            && t.refunded == refunded && t.amount == p.amount
            && (p.refunded <= refunded <= p.refunded + p.pending ==> t.refunded + t.pending == p.refunded + p.pending)
            && (refunded > p.refunded + p.pending ==> t.pending == 0)
            && t.status == (if refunded < charged then PARTIALLY_REFUNDED else REFUNDED)
            && AfterWebhook(t, Some((refunded, charged))) == t
  {
  }

  /** One without amounts counts as the whole payment refunded. */
  lemma BareWebhookIs(p: Payment)
    ensures AfterWebhook(p, None).refunded == p.amount && AfterWebhook(p, None).status == REFUNDED
    ensures AfterWebhook(p, None) == AfterWebhook(p, Some((p.amount, p.amount)))
  {
  }
}
