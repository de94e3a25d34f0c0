/**
 One payment's refund ledger (apps/payments/services.py) as a small-step system: any number of callers run
 `initiate_refund` through claim, provider call and commit, may crash between phases, and interleave with
 provider webhooks. Money is in pence. The provider runs at most one refund per idempotency key, for ever.
 */
module RefundLedger {
  import opened Results
  import opened MapSums

  datatype PaymentStatus = PENDING | PROCESSING | SUCCEEDED | FAILED | PARTIALLY_REFUNDED | REFUNDED | CANCELLED

  datatype Payment = Payment(amount: nat, status: PaymentStatus, refunded: int, pending: int)

  /** The default key names the amount; disputes, couriers and other callers pass a key of their own. */
  datatype Key = ByAmount(pence: nat) | Named(id: nat)

  datatype RequestStatus = InFlight | Completed | Failed

  /** A PaymentRefundRequest row (PENDING, COMPLETED or FAILED). */
  datatype Request = Request(amount: nat, status: RequestStatus, refundId: Option<nat>)

  /** A refund the provider has carried out. */
  datatype Refund = Refund(id: nat, amount: nat)

  /** Where a caller of `initiate_refund` stands. */
  datatype Pc =
    | Claimed(key: Key, amount: nat, reserved: bool)
    | Executed(key: Key, id: nat)
    | Errored(key: Key, amount: nat, reserved: bool)
    | Returned(key: Key)
    | Raised

  datatype Ledger = Ledger(
    payment: Payment,
    requests: map<Key, Request>,
    foreign: set<Key>,
    provider: map<Key, Refund>,
    callers: map<nat, Pc>)

  predicate Live(pc: Pc) {
    pc.Claimed? || pc.Executed? || pc.Errored?
  }

  function Max(a: int, b: int): int {
    if a >= b then a else b
  }

  // ---------------------------------------------------------------------------
  // The phases
  // ---------------------------------------------------------------------------

  /** What can still be promised to a new refund. */
  function Refundable(p: Payment): int {
    p.amount - p.refunded - p.pending
  }

  predicate Open(p: Payment) {
    p.status == SUCCEEDED || p.status == PARTIALLY_REFUNDED
  }

  /** Write the row as PENDING and add its amount to the pending total. */
  function Reserve(l: Ledger, key: Key, row: Request): Ledger {
    l.(requests := l.requests[key := row.(status := InFlight)],
       payment := l.payment.(pending := l.payment.pending + row.amount))
  }

  /** First transaction of `initiate_refund`; an exception rolls it back. */
  function AfterClaim(l: Ledger, amount: Option<int>, key: Option<Key>): (Ledger, Pc) {
    if !Open(l.payment) then (l, Raised)
    else
      var wanted := if amount.Some? then amount.value else l.payment.amount - l.payment.refunded;
      if wanted <= 0 then (l, Raised)
      else
        var k := if key.Some? then key.value else ByAmount(wanted);
        if k in l.foreign then (l, Raised)
        else if k in l.requests then
          var row := l.requests[k];
          match row.status
          case Completed => (l, Returned(k))
          case InFlight => (l, Claimed(k, row.amount, false))
          case Failed =>
            if row.amount > Refundable(l.payment) then (l, Raised)
            else (Reserve(l, k, row), Claimed(k, row.amount, true))
        else if wanted > Refundable(l.payment) then (l, Raised)
        else (Reserve(l, k, Request(wanted, InFlight, None)), Claimed(k, wanted, true))
  }

  /** The provider's idempotent create: an old key returns its old refund, a new one gets a fresh id. */
  function Create(provider: map<Key, Refund>, key: Key, amount: nat): (map<Key, Refund>, nat) {
    if key in provider then (provider, provider[key].id)
    else (provider[key := Refund(|provider|, amount)], |provider|)
  }

  /** Compensation after a provider error; only the caller that reserved undoes the reservation. */
  function AfterRelease(l: Ledger, key: Key, amount: nat, reserved: bool): Ledger
    requires key in l.requests
  {
    if !reserved then l
    else
      l.(requests := l.requests[key := l.requests[key].(status := Failed)],
         payment := l.payment.(pending := Max(0, l.payment.pending - amount)))
  }

  /** Last transaction: record the provider's refund id. */
  function AfterComplete(l: Ledger, key: Key, id: nat): Ledger
    requires key in l.requests
  {
    l.(requests := l.requests[key := l.requests[key].(status := Completed, refundId := Some(id))])
  }

  /** `handle_refund`: the webhook's cumulative amount, or the whole payment when it carries none. */
  function AfterWebhook(p: Payment, reported: Option<(nat, nat)>): Payment {
    var refunded := if reported.Some? then reported.value.0 else p.amount;
    var full := reported.None? || reported.value.0 >= reported.value.1;
    p.(refunded := refunded,
       pending := Max(0, p.pending - (refunded - p.refunded)),
       status := if full then REFUNDED else PARTIALLY_REFUNDED)
  }

  // ---------------------------------------------------------------------------
  // Steps and runs
  // ---------------------------------------------------------------------------

  datatype Step =
    | Claim(c: nat, amount: Option<int>, key: Option<Key>)
    | Execute(c: nat)
    | ExecuteUnheard(c: nat)
    | Refuse(c: nat)
    | Complete(c: nat)
    | Release(c: nat)
    | Crash(c: nat)
    | Webhook(reported: Option<(nat, nat)>)
    | PaymentEvent(status: PaymentStatus)
    | OtherPaymentTakes(taken: Key)

  predicate Enabled(l: Ledger, step: Step) {
    match step
    case Claim(c, _, _) => !(c in l.callers && Live(l.callers[c]))
    case Execute(c) => c in l.callers && l.callers[c].Claimed?
    case ExecuteUnheard(c) => c in l.callers && l.callers[c].Claimed?
    case Refuse(c) => c in l.callers && l.callers[c].Claimed?
    case Complete(c) => c in l.callers && l.callers[c].Executed? && l.callers[c].key in l.requests
    case Release(c) => c in l.callers && l.callers[c].Errored? && l.callers[c].key in l.requests
    case Crash(c) => c in l.callers && Live(l.callers[c])
    case Webhook(_) => true
    case PaymentEvent(st) => st == SUCCEEDED || st == FAILED || st == CANCELLED
    case OtherPaymentTakes(k) => k !in l.requests
  }

  function Next(l: Ledger, step: Step): Ledger
    requires Enabled(l, step)
  {
    match step
    case Claim(c, amount, key) =>
      var (t, pc) := AfterClaim(l, amount, key);
      t.(callers := l.callers[c := pc])
    case Execute(c) =>
      var pc := l.callers[c];
      var (provider, id) := Create(l.provider, pc.key, pc.amount);
      l.(provider := provider, callers := l.callers[c := Executed(pc.key, id)])
    case ExecuteUnheard(c) =>
      var pc := l.callers[c];
      l.(provider := Create(l.provider, pc.key, pc.amount).0,
         callers := l.callers[c := Errored(pc.key, pc.amount, pc.reserved)])
    case Refuse(c) =>
      var pc := l.callers[c];
      l.(callers := l.callers[c := Errored(pc.key, pc.amount, pc.reserved)])
    case Complete(c) =>
      var pc := l.callers[c];
      AfterComplete(l, pc.key, pc.id).(callers := l.callers[c := Returned(pc.key)])
    case Release(c) =>
      var pc := l.callers[c];
      AfterRelease(l, pc.key, pc.amount, pc.reserved).(callers := l.callers[c := Raised])
    case Crash(c) => l.(callers := l.callers[c := Raised])
    case Webhook(reported) => l.(payment := AfterWebhook(l.payment, reported))
    case PaymentEvent(st) => l.(payment := l.payment.(status := st))
    case OtherPaymentTakes(k) => l.(foreign := l.foreign + {k})
  }

  /** A payment that is closed, refunded in full for instance, is not opened again. */
  predicate StaysClosed(l: Ledger, step: Step)
    requires Enabled(l, step)
  {
    !Open(l.payment) ==> !Open(Next(l, step).payment)
  }

  function NewLedger(amount: nat): Ledger {
    Ledger(Payment(amount, SUCCEEDED, 0, 0), map[], {}, map[], map[])
  }

  // ---------------------------------------------------------------------------
  // Totals
  // ---------------------------------------------------------------------------

  function LiveAmount(): Request -> int {
    (r: Request) => if r.status == Failed then 0 else r.amount
  }

  function RefundAmount(): Refund -> int {
    (r: Refund) => r.amount
  }

  /** Everything requested and not failed. */
  ghost function LiveTotal(l: Ledger): int {
    SumMap(l.requests, LiveAmount())
  }

  /** Everything the provider has actually refunded. */
  ghost function ProviderTotal(l: Ledger): int {
    SumMap(l.provider, RefundAmount())
  }

  // ---------------------------------------------------------------------------
  // As the code runs: the Payment row and its request rows, one method a transaction
  // ---------------------------------------------------------------------------

  class PaymentService {
    var payment: Payment
    var requests: map<Key, Request>
    var foreign: set<Key>

    constructor (amount: nat)
      ensures payment == Payment(amount, SUCCEEDED, 0, 0) && requests == map[] && foreign == {}
    {
      payment, requests, foreign := Payment(amount, SUCCEEDED, 0, 0), map[], {};
    }

    /** The tables, beside a given provider and set of callers. */
    function View(provider: map<Key, Refund>, callers: map<nat, Pc>): Ledger
      reads this
    {
      Ledger(payment, requests, foreign, provider, callers)
    }

    method ClaimRefund(amount: Option<int>, key: Option<Key>) returns (pc: Pc)
      modifies this
      ensures forall provider, callers ::
                (View(provider, callers), pc) == AfterClaim(old(View(provider, callers)), amount, key)
    {
      if payment.status != SUCCEEDED && payment.status != PARTIALLY_REFUNDED {
        return Raised;
      }
      var outstanding := payment.amount - payment.refunded;
      var refundAmount := if amount.Some? then amount.value else outstanding;
      if refundAmount <= 0 {
        return Raised;
      }
      var k := if key.Some? then key.value else ByAmount(refundAmount);
      if k in foreign {
        return Raised;
      }
      var created := k !in requests;
      var row := if created then Request(refundAmount, InFlight, None) else requests[k];
      if row.status == Completed {
        return Returned(k);
      }
      var needsReservation := created || row.status == Failed;
      if needsReservation {
        var maxRefundable := payment.amount - payment.refunded - payment.pending;
        if row.amount > maxRefundable {
          return Raised;
        }
        row := row.(status := InFlight);
        requests := requests[k := row];
        payment := payment.(pending := payment.pending + row.amount);
      }
      return Claimed(k, row.amount, needsReservation);
    }

    method ReleaseClaim(key: Key, amount: nat, reserved: bool)
      requires key in requests
      modifies this
      ensures forall provider, callers ::
                View(provider, callers) == AfterRelease(old(View(provider, callers)), key, amount, reserved)
    {
      if reserved {
        requests := requests[key := requests[key].(status := Failed)];
        payment := payment.(pending := Max(0, payment.pending - amount));
      }
    }

    method CompleteRefund(key: Key, id: nat)
      requires key in requests
      modifies this
      ensures forall provider, callers ::
                View(provider, callers) == AfterComplete(old(View(provider, callers)), key, id)
    {
      requests := requests[key := requests[key].(refundId := Some(id))];
      requests := requests[key := requests[key].(status := Completed)];
    }

    method HandleRefund(reported: Option<(nat, nat)>)
      modifies this
      ensures payment == AfterWebhook(old(payment), reported) && requests == old(requests) && foreign == old(foreign)
    {
      var oldRefunded := payment.refunded;
      var isFull := true;
      if reported.Some? {
        payment := payment.(refunded := reported.value.0);
        isFull := reported.value.0 >= reported.value.1;
      } else {
        payment := payment.(refunded := payment.amount);
      }
      var confirmedDelta := payment.refunded - oldRefunded;
      payment := payment.(pending := Max(0, payment.pending - confirmedDelta));
      payment := payment.(status := if isFull then REFUNDED else PARTIALLY_REFUNDED);
    }
  }
}
