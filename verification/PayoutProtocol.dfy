/**
 Supplier payouts (apps/payments/services.py) as a small-step system: workers run `process_payout`, refunds run
 `reverse_payout_for_sub_order`, and a full-refund webhook fails what is unpaid. Any caller may crash between its
 transactions. A payout is named by its sub-order; money is in pence, time in seconds.
 */
module PayoutProtocol {
  import opened Results
  import opened Rounding

  datatype PayoutStatus = PENDING | PROCESSING | PAID | FAILED | REVERSED

  datatype Payout = Payout(order: nat, net: nat, status: PayoutStatus, transferId: Option<nat>, startedAt: Option<int>)

  /** The idempotency keys `payout-{id}` and `reverse-{id}-{pence}`. */
  datatype Key = PayoutKey(payout: nat) | ReverseKey(payout: nat, pence: nat)

  /** Money the provider has moved: a transfer, or the reversal of one. */
  datatype Operation =
    | Transfer(id: nat, amount: nat)
    | Reversal(id: nat, amount: nat, of: nat)

  datatype Pc =
    | Claimed(payout: nat)
    | Sent(payout: nat, id: nat)
    | Refused(payout: nat)
    | Reversing(payout: nat, transfer: nat, amount: nat)
    | ReversalMade(payout: nat)
    | Ended

  datatype World = World(now: int, payouts: map<nat, Payout>, provider: map<Key, Operation>, callers: map<nat, Pc>)

  const PROCESSING_TIMEOUT: int := 600

  // ---------------------------------------------------------------------------
  // The transactions, on one row
  // ---------------------------------------------------------------------------

  predicate Stale(p: Payout, now: int) {
    p.startedAt.None? || now - p.startedAt.value >= PROCESSING_TIMEOUT
  }

  /** First transaction of `process_payout`; None when it raises. */
  function AfterStart(p: Payout, now: int): Option<Payout> {
    if p.status == PENDING || (p.status == PROCESSING && Stale(p, now)) then
      Some(p.(status := PROCESSING, startedAt := Some(now)))
    else None
  }

  function AfterPaid(p: Payout, id: nat): Payout {
    p.(transferId := Some(id), status := PAID)
  }

  /** A provider error fails the payout unless another worker has recorded success. */
  function AfterError(p: Payout): Payout {
    if p.status != PAID then p.(status := FAILED) else p
  }

  /** What a full refund, by webhook or reversal, does to a payout not paid out yet. */
  function FailUnpaid(p: Payout): Payout {
    if p.status == PENDING || p.status == PROCESSING then p.(status := FAILED) else p
  }

  function AfterReversal(p: Payout): Payout {
    if p.status == PAID then p.(status := REVERSED) else p
  }

  /** The numerator of min(num / den, 1). */
  function Capped(num: nat, den: nat): nat {
    if num < den then num else den
  }

  lemma ShareOf(net: nat, num: nat, den: nat)
    requires den > 0
    ensures var amount := HalfEven(net * Capped(num, den), den);
            && 0 <= amount <= net
            && (num <= den ==> NearestEven(amount, net * num, den))
            && (num >= den ==> amount == net)
  {
    HalfEvenIs(net * Capped(num, den), den);
    MulMono(net, 0, Capped(num, den));
    MulMono(net, Capped(num, den), den);
    NearestBetween(HalfEven(net * Capped(num, den), den), net * Capped(num, den), den, 0, net);
    if num >= den {
      NearestBetween(HalfEven(net * den, den), net * den, den, net, net);
    }
  }

  /** `net * min(ratio, 1)` to the penny, for the ratio num / den of the sub-order refunded. */
  function ReversalAmount(net: nat, num: nat, den: nat): (amount: nat)
    requires den > 0
    ensures amount <= net
    ensures num <= den ==> NearestEven(amount, net * num, den)
    ensures num >= den ==> amount == net
  {
    ShareOf(net, num, den);
    HalfEven(net * Capped(num, den), den)
  }

  // ---------------------------------------------------------------------------
  // Steps and runs
  // ---------------------------------------------------------------------------

  datatype Step =
    | Tick(seconds: nat)
    | CreatePayout(payout: nat, order: nat, net: nat)
    | Start(c: nat, payout: nat)
    | NotOnboarded(c: nat)
    | Pay(c: nat)
    | PayUnheard(c: nat)
    | PayRefused(c: nat)
    | WritePaid(c: nat)
    | WriteError(c: nat)
    | FullRefund(order: nat)
    | BeginReversal(c: nat, payout: nat, num: nat, den: nat)
    | Reverse(c: nat)
    | ReverseUnheard(c: nat)
    | SkipReversal(c: nat)
    | FinishReversal(c: nat)
    | Crash(c: nat)

  predicate Idle(w: World, c: nat) {
    c !in w.callers || w.callers[c].Ended?
  }

  predicate Enabled(w: World, step: Step) {
    match step
    case Tick(_) => true
    case CreatePayout(p, _, _) => p !in w.payouts
    case Start(c, p) => Idle(w, c) && p in w.payouts
    case NotOnboarded(c) => c in w.callers && w.callers[c].Claimed? && w.callers[c].payout in w.payouts
    case Pay(c) => c in w.callers && w.callers[c].Claimed? && w.callers[c].payout in w.payouts
    case PayUnheard(c) => c in w.callers && w.callers[c].Claimed? && w.callers[c].payout in w.payouts
    case PayRefused(c) => c in w.callers && w.callers[c].Claimed? && w.callers[c].payout in w.payouts
    case WritePaid(c) => c in w.callers && w.callers[c].Sent? && w.callers[c].payout in w.payouts
    case WriteError(c) => c in w.callers && w.callers[c].Refused? && w.callers[c].payout in w.payouts
    case FullRefund(_) => true
    case BeginReversal(c, _, _, den) => Idle(w, c) && den > 0
    case Reverse(c) => c in w.callers && w.callers[c].Reversing? && w.callers[c].amount > 0
    case ReverseUnheard(c) => c in w.callers && w.callers[c].Reversing? && w.callers[c].amount > 0
    case SkipReversal(c) => c in w.callers && w.callers[c].Reversing? && w.callers[c].amount == 0
    case FinishReversal(c) => c in w.callers && w.callers[c].ReversalMade? && w.callers[c].payout in w.payouts
    case Crash(c) => c in w.callers
  }

  /** The provider's idempotent create: an old key answers with its old operation. */
  function Create(provider: map<Key, Operation>, key: Key, op: Operation): map<Key, Operation> {
    if key in provider then provider else provider[key := op]
  }

  function WithRow(w: World, p: nat, row: Payout): World {
    w.(payouts := w.payouts[p := row])
  }

  function WithCaller(w: World, c: nat, pc: Pc): World {
    w.(callers := w.callers[c := pc])
  }

  function Transferred(w: World, p: nat): World
    requires p in w.payouts
  {
    w.(provider := Create(w.provider, PayoutKey(p), Transfer(|w.provider|, w.payouts[p].net)))
  }

  function TransferReversed(w: World, p: nat, transfer: nat, amount: nat): World {
    w.(provider := Create(w.provider, ReverseKey(p, amount), Reversal(|w.provider|, amount, transfer)))
  }

  /** First transaction of `reverse_payout_for_sub_order`: fail the unpaid, pick up the transfer of the paid. */
  function AfterBeginReversal(w: World, c: nat, p: nat, num: nat, den: nat): World
    requires den > 0
  {
    if p !in w.payouts then WithCaller(w, c, Ended)
    else
      var row := w.payouts[p];
      if row.status != PAID then WithCaller(WithRow(w, p, FailUnpaid(row)), c, Ended)
      else if row.transferId.None? then WithCaller(w, c, ReversalMade(p))
      else WithCaller(w, c, Reversing(p, row.transferId.value, ReversalAmount(row.net, num, den)))
  }

  function FailUnpaidOf(payouts: map<nat, Payout>, order: nat): map<nat, Payout> {
    map p | p in payouts :: if payouts[p].order == order then FailUnpaid(payouts[p]) else payouts[p]
  }

  function Next(w: World, step: Step): World
    requires Enabled(w, step)
  {
    match step
    case Tick(seconds) => w.(now := w.now + seconds)
    case CreatePayout(p, order, net) => WithRow(w, p, Payout(order, net, PENDING, None, None))
    case Start(c, p) =>
      var row := AfterStart(w.payouts[p], w.now);
      if row.None? then WithCaller(w, c, Ended) else WithCaller(WithRow(w, p, row.value), c, Claimed(p))
    case NotOnboarded(c) =>
      var p := w.callers[c].payout;
      WithCaller(WithRow(w, p, w.payouts[p].(status := PENDING)), c, Ended)
    case Pay(c) =>
      var t := Transferred(w, w.callers[c].payout);
      WithCaller(t, c, Sent(w.callers[c].payout, t.provider[PayoutKey(w.callers[c].payout)].id))
    case PayUnheard(c) => WithCaller(Transferred(w, w.callers[c].payout), c, Refused(w.callers[c].payout))
    case PayRefused(c) => WithCaller(w, c, Refused(w.callers[c].payout))
    case WritePaid(c) =>
      var p := w.callers[c].payout;
      WithCaller(WithRow(w, p, AfterPaid(w.payouts[p], w.callers[c].id)), c, Ended)
    case WriteError(c) =>
      var p := w.callers[c].payout;
      WithCaller(WithRow(w, p, AfterError(w.payouts[p])), c, Ended)
    case FullRefund(order) => w.(payouts := FailUnpaidOf(w.payouts, order))
    case BeginReversal(c, p, num, den) => AfterBeginReversal(w, c, p, num, den)
    case Reverse(c) =>
      var pc := w.callers[c];
      WithCaller(TransferReversed(w, pc.payout, pc.transfer, pc.amount), c, ReversalMade(pc.payout))
    case ReverseUnheard(c) =>
      var pc := w.callers[c];
      WithCaller(TransferReversed(w, pc.payout, pc.transfer, pc.amount), c, Ended)
    case SkipReversal(c) => WithCaller(w, c, ReversalMade(w.callers[c].payout))
    case FinishReversal(c) =>
      var p := w.callers[c].payout;
      WithCaller(WithRow(w, p, AfterReversal(w.payouts[p])), c, Ended)
    case Crash(c) => WithCaller(w, c, Ended)
  }

  function NewWorld(now: int): World {
    World(now, map[], map[], map[])
  }

  // ---------------------------------------------------------------------------
  // As the code runs: the payout rows, one method a transaction
  // ---------------------------------------------------------------------------

  class PayoutService {
    var payouts: map<nat, Payout>

    constructor ()
      ensures payouts == map[]
    {
      payouts := map[];
    }

    method StartPayout(p: nat, now: int) returns (claimed: bool)
      requires p in payouts
      modifies this
      ensures var row := AfterStart(old(payouts)[p], now);
              claimed == row.Some? && payouts == if claimed then old(payouts)[p := row.value] else old(payouts)
    {
      var row := payouts[p];
      if row.status == PENDING {
        payouts := payouts[p := row.(status := PROCESSING, startedAt := Some(now))];
        return true;
      } else if row.status == PROCESSING {
        if row.startedAt.Some? && now - row.startedAt.value < PROCESSING_TIMEOUT {
          return false;
        }
        payouts := payouts[p := row.(startedAt := Some(now))];
        return true;
      } else {
        return false;
      }
    }

    /** The supplier cannot be paid yet. */
    method ReturnToPending(p: nat)
      requires p in payouts
      modifies this
      ensures payouts == old(payouts)[p := old(payouts)[p].(status := PENDING)]
    {
      payouts := payouts[p := payouts[p].(status := PENDING)];
    }

    method RecordPaid(p: nat, id: nat)
      requires p in payouts
      modifies this
      ensures payouts == old(payouts)[p := AfterPaid(old(payouts)[p], id)]
    {
      payouts := payouts[p := payouts[p].(transferId := Some(id))];
      payouts := payouts[p := payouts[p].(status := PAID)];
    }

    method RecordError(p: nat)
      requires p in payouts
      modifies this
      ensures payouts == old(payouts)[p := AfterError(old(payouts)[p])]
    {
      if payouts[p].status != PAID {
        payouts := payouts[p := payouts[p].(status := FAILED)];
      }
    }

    method FailUnpaidPayouts(order: nat)
      modifies this
      ensures payouts == FailUnpaidOf(old(payouts), order)
    {
      payouts := map p | p in payouts ::
        if payouts[p].order == order && (payouts[p].status == PENDING || payouts[p].status == PROCESSING)
        then payouts[p].(status := FAILED)
        else payouts[p];
    }

    /** The transfer to reverse and by how much, when there is one to reverse. */
    method StartReversal(p: nat, num: nat, den: nat) returns (paid: bool, transfer: Option<nat>, amount: nat)
      requires den > 0
      modifies this
      ensures paid == (p in old(payouts) && old(payouts)[p].status == PAID)
      ensures payouts == if p in old(payouts) then old(payouts)[p := FailUnpaid(old(payouts)[p])] else old(payouts)
      ensures paid ==> transfer == old(payouts)[p].transferId && amount == ReversalAmount(old(payouts)[p].net, num, den)
    {
      paid, transfer, amount := false, None, 0;
      if p !in payouts {
        return;
      }
      var row := payouts[p];
      if row.status == REVERSED || row.status == FAILED {
        assert payouts[p := row] == payouts;
        return;
      }
      if row.status == PENDING || row.status == PROCESSING {
        payouts := payouts[p := row.(status := FAILED)];
        return;
      }
      assert payouts[p := row] == payouts;
      paid, transfer, amount := true, row.transferId, ReversalAmount(row.net, num, den);
    }

    method FinishReversing(p: nat)
      requires p in payouts
      modifies this
      ensures payouts == old(payouts)[p := AfterReversal(old(payouts)[p])]
    {
      if payouts[p].status == PAID {
        payouts := payouts[p := payouts[p].(status := REVERSED)];
      }
    }
  }
}
