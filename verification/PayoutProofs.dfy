/** Safety of supplier payouts over every interleaving of workers, reversals, webhooks and crashes. */
module PayoutProofs {
  import opened Results
  import opened Runs
  import opened FreshIds
  import opened MapSums
  import opened Rounding
  import opened PayoutProtocol

  // ---------------------------------------------------------------------------
  // The invariant
  // ---------------------------------------------------------------------------

  predicate TransferIs(w: World, p: nat, id: nat) {
    PayoutKey(p) in w.provider && w.provider[PayoutKey(p)].id == id
  }

  /** PAID and REVERSED rows have a transfer id, and a recorded id names the provider's transfer. */
  predicate RowFits(w: World, p: nat)
    requires p in w.payouts
  {
    var row := w.payouts[p];
    && (row.status == PAID || row.status == REVERSED ==> row.transferId.Some?)
    && (row.transferId.Some? ==> TransferIs(w, p, row.transferId.value))
  }

  /** Under a payout's key there is a transfer of its net; under a reversal's a part of that transfer. */
  predicate OpFits(w: World, k: Key)
    requires k in w.provider
  {
    && k.payout in w.payouts
    && match k
       case PayoutKey(p) => w.provider[k].Transfer? && w.provider[k].amount == w.payouts[p].net
       case ReverseKey(p, pence) =>
         && w.provider[k].Reversal? && w.provider[k].amount == pence && 0 < pence <= w.payouts[p].net
         && TransferIs(w, p, w.provider[k].of)
  }

  predicate PcFits(w: World, pc: Pc) {
    match pc
    case Claimed(p) => p in w.payouts
    case Sent(p, id) => p in w.payouts && TransferIs(w, p, id)
    case Refused(p) => p in w.payouts
    case Reversing(p, transfer, amount) => p in w.payouts && TransferIs(w, p, transfer) && amount <= w.payouts[p].net
    case ReversalMade(p) => p in w.payouts
    case Ended => true
  }

  ghost predicate RowsFit(w: World) {
    forall p :: p in w.payouts ==> RowFits(w, p)
  }

  ghost predicate OpsFit(w: World) {
    forall k :: k in w.provider ==> OpFits(w, k)
  }

  ghost predicate CallersFit(w: World) {
    forall c :: c in w.callers ==> PcFits(w, w.callers[c])
  }

  ghost predicate Inv(w: World) {
    RowsFit(w) && OpsFit(w) && CallersFit(w)
  }

  // ---------------------------------------------------------------------------
  // Building blocks
  // ---------------------------------------------------------------------------

  lemma CallerInv(w: World, c: nat, pc: Pc)
    requires Inv(w) && PcFits(w, pc)
    ensures Inv(WithCaller(w, c, pc))
  {
    var t := WithCaller(w, c, pc);
    forall p | p in t.payouts ensures RowFits(t, p) {
      assert RowFits(w, p);
    }
    forall k | k in t.provider ensures OpFits(t, k) {
      assert OpFits(w, k);
    }
    forall d | d in t.callers ensures PcFits(t, t.callers[d]) {
      assert d != c ==> PcFits(w, w.callers[d]);
    }
  }

  /** New rows with the old nets, each fitting the provider's operations. */
  lemma RowsInv(w: World, t: World)
    requires Inv(w) && t.provider == w.provider && t.callers == w.callers
    requires forall p :: p in w.payouts ==> p in t.payouts && t.payouts[p].net == w.payouts[p].net
    requires RowsFit(t)
    ensures Inv(t)
  {
    forall k | k in t.provider ensures OpFits(t, k) {
      assert OpFits(w, k);
    }
    forall d | d in t.callers ensures PcFits(t, t.callers[d]) {
      assert PcFits(w, w.callers[d]);
    }
  }

  lemma RowInv(w: World, p: nat, row: Payout)
    requires Inv(w) && (p in w.payouts ==> row.net == w.payouts[p].net)
    requires RowFits(WithRow(w, p, row), p)
    ensures Inv(WithRow(w, p, row))
  {
    var t := WithRow(w, p, row);
    forall q | q in t.payouts ensures RowFits(t, q) {
      assert q != p ==> RowFits(w, q);
    }
    RowsInv(w, t);
  }

  /** A new operation under a fresh key disturbs nothing already recorded. */
  lemma CreateInv(w: World, k: Key, op: Operation)
    requires Inv(w)
    requires k !in w.provider ==> OpFits(w.(provider := w.provider[k := op]), k)
    ensures Inv(w.(provider := Create(w.provider, k, op)))
  {
    var t := w.(provider := Create(w.provider, k, op));
    forall p | p in t.payouts ensures RowFits(t, p) {
      assert RowFits(w, p);
    }
    forall j | j in t.provider ensures OpFits(t, j) {
      assert j in w.provider ==> OpFits(w, j);
    }
    forall d | d in t.callers ensures PcFits(t, t.callers[d]) {
      assert PcFits(w, w.callers[d]);
    }
  }

  lemma TransferredInv(w: World, p: nat)
    requires Inv(w) && p in w.payouts
    ensures Inv(Transferred(w, p)) && PayoutKey(p) in Transferred(w, p).provider
  {
    CreateInv(w, PayoutKey(p), Transfer(|w.provider|, w.payouts[p].net));
  }

  lemma ReversedInv(w: World, p: nat, transfer: nat, amount: nat)
    requires Inv(w) && PcFits(w, Reversing(p, transfer, amount)) && amount > 0
    ensures Inv(TransferReversed(w, p, transfer, amount))
  {
    CreateInv(w, ReverseKey(p, amount), Reversal(|w.provider|, amount, transfer));
  }

  // ---------------------------------------------------------------------------
  // Each step keeps the invariant
  // ---------------------------------------------------------------------------

  lemma StartInv(w: World, c: nat, p: nat)
    requires Inv(w) && Enabled(w, Start(c, p))
    ensures Inv(Next(w, Start(c, p)))
  {
    var row := AfterStart(w.payouts[p], w.now);
    assert RowFits(w, p);
    if row.None? {
      CallerInv(w, c, Ended);
    } else {
      RowInv(w, p, row.value);
      CallerInv(WithRow(w, p, row.value), c, Claimed(p));
    }
  }

  lemma PayInv(w: World, step: Step)
    requires Inv(w) && Enabled(w, step) && (step.Pay? || step.PayUnheard? || step.PayRefused?)
    ensures Inv(Next(w, step))
  {
    var p := w.callers[step.c].payout;
    TransferredInv(w, p);
    var t := Transferred(w, p);
    match step
    case Pay(c) => CallerInv(t, c, Sent(p, t.provider[PayoutKey(p)].id));
    case PayUnheard(c) => CallerInv(t, c, Refused(p));
    case PayRefused(c) => CallerInv(w, c, Refused(p));
  }

  /** A caller's write of its own payout's row, which then ends the caller. */
  lemma WriteInv(w: World, c: nat, p: nat, row: Payout)
    requires Inv(w) && p in w.payouts && row.net == w.payouts[p].net && RowFits(WithRow(w, p, row), p)
    ensures Inv(WithCaller(WithRow(w, p, row), c, Ended))
  {
    RowInv(w, p, row);
    CallerInv(WithRow(w, p, row), c, Ended);
  }

  lemma WritesInv(w: World, step: Step)
    requires Inv(w) && Enabled(w, step)
    requires step.NotOnboarded? || step.WritePaid? || step.WriteError? || step.FinishReversal?
    ensures Inv(Next(w, step))
  {
    var pc := w.callers[step.c];
    var p := pc.payout;
    assert RowFits(w, p) && PcFits(w, pc);
    match step
    case NotOnboarded(c) => WriteInv(w, c, p, w.payouts[p].(status := PENDING));
    case WritePaid(c) => WriteInv(w, c, p, AfterPaid(w.payouts[p], pc.id));
    case WriteError(c) => WriteInv(w, c, p, AfterError(w.payouts[p]));
    case FinishReversal(c) => WriteInv(w, c, p, AfterReversal(w.payouts[p]));
  }

  lemma FullRefundInv(w: World, order: nat)
    requires Inv(w)
    ensures Inv(Next(w, FullRefund(order)))
  {
    var t := Next(w, FullRefund(order));
    forall p | p in t.payouts ensures RowFits(t, p) {
      assert RowFits(w, p);
    }
    RowsInv(w, t);
  }

  lemma BeginReversalInv(w: World, c: nat, p: nat, num: nat, den: nat)
    requires Inv(w) && den > 0
    ensures Inv(AfterBeginReversal(w, c, p, num, den))
  {
    if p !in w.payouts {
      CallerInv(w, c, Ended);
    } else {
      var row := w.payouts[p];
      assert RowFits(w, p);
      if row.status != PAID {
        WriteInv(w, c, p, FailUnpaid(row));
      } else {
        CallerInv(w, c, Reversing(p, row.transferId.value, ReversalAmount(row.net, num, den)));
      }
    }
  }

  lemma ReverseInv(w: World, step: Step)
    requires Inv(w) && Enabled(w, step) && (step.Reverse? || step.ReverseUnheard? || step.SkipReversal?)
    ensures Inv(Next(w, step))
  {
    var pc := w.callers[step.c];
    assert PcFits(w, pc);
    match step
    case Reverse(c) =>
      ReversedInv(w, pc.payout, pc.transfer, pc.amount);
      CallerInv(TransferReversed(w, pc.payout, pc.transfer, pc.amount), c, ReversalMade(pc.payout));
    case ReverseUnheard(c) =>
      ReversedInv(w, pc.payout, pc.transfer, pc.amount);
      CallerInv(TransferReversed(w, pc.payout, pc.transfer, pc.amount), c, Ended);
    case SkipReversal(c) => CallerInv(w, c, ReversalMade(pc.payout));
  }

  lemma TickInv(w: World, seconds: nat)
    requires Inv(w)
    ensures Inv(w.(now := w.now + seconds))
  {
    var t := w.(now := w.now + seconds);
    forall p | p in t.payouts ensures RowFits(t, p) {
      assert RowFits(w, p);
    }
    RowsInv(w, t);
  }

  lemma CreatePayoutInv(w: World, p: nat, order: nat, net: nat)
    requires Inv(w) && p !in w.payouts
    ensures Inv(WithRow(w, p, Payout(order, net, PENDING, None, None)))
  {
    RowInv(w, p, Payout(order, net, PENDING, None, None));
  }

  lemma StepInv(w: World, step: Step)
    requires Inv(w) && Enabled(w, step)
    ensures Inv(Next(w, step))
  {
    match step
    case Tick(seconds) => TickInv(w, seconds);
    case CreatePayout(p, order, net) => CreatePayoutInv(w, p, order, net);
    case Start(c, p) => StartInv(w, c, p);
    case FullRefund(order) => FullRefundInv(w, order);
    case BeginReversal(c, p, num, den) => BeginReversalInv(w, c, p, num, den);
    case Crash(c) => CallerInv(w, c, Ended);
    case Pay(_) => PayInv(w, step);
    case PayUnheard(_) => PayInv(w, step);
    case PayRefused(_) => PayInv(w, step);
    case Reverse(_) => ReverseInv(w, step);
    case ReverseUnheard(_) => ReverseInv(w, step);
    case SkipReversal(_) => ReverseInv(w, step);
    case _ => WritesInv(w, step);
  }

  lemma {:induction false} RunInv(w: World, steps: seq<Step>, ok: (World, Step) -> bool)
    requires Inv(w) && IsRun(Next, w, steps, ok)
    ensures Inv(Run(Next, w, steps, ok))
    decreases |steps|
  {
    if steps != [] {
      StepInv(w, steps[0]);
      RunInv(Next(w, steps[0]), steps[1..], ok);
    }
  }

  // ---------------------------------------------------------------------------
  // Main results
  // ---------------------------------------------------------------------------

  /**
   Under any interleaving of workers, stale takeovers, crashes, lost answers, webhooks and reversals: PAID and
   REVERSED mean the payout's one transfer exists, for its net, with its id recorded; and every reversal takes
   back a part of that transfer.
   */
  lemma PaidMeansTransferred(now: int, steps: seq<Step>)
    requires IsRun(Next, NewWorld(now), steps, AnyStep)
    ensures var w := Run(Next, NewWorld(now), steps, AnyStep);
            && (forall p :: p in w.payouts && (w.payouts[p].status == PAID || w.payouts[p].status == REVERSED) ==>
                  && PayoutKey(p) in w.provider
                  && w.payouts[p].transferId == Some(w.provider[PayoutKey(p)].id))
            && (forall k :: k in w.provider && w.provider[k].Transfer? ==>
                  k == PayoutKey(k.payout) && k.payout in w.payouts && w.provider[k].amount == w.payouts[k.payout].net)
            && (forall k :: k in w.provider && w.provider[k].Reversal? ==>
                  && k.ReverseKey? && w.provider[k].amount == k.pence
                  && k.payout in w.payouts && w.provider[k].amount <= w.payouts[k.payout].net
                  && PayoutKey(k.payout) in w.provider && w.provider[k].of == w.provider[PayoutKey(k.payout)].id)
  {
    RunInv(NewWorld(now), steps, AnyStep);
    var w := Run(Next, NewWorld(now), steps, AnyStep);
    forall p | p in w.payouts && (w.payouts[p].status == PAID || w.payouts[p].status == REVERSED)
      ensures PayoutKey(p) in w.provider && w.payouts[p].transferId == Some(w.provider[PayoutKey(p)].id)
    {
      assert RowFits(w, p);
    }
    forall k | k in w.provider ensures OpFits(w, k) {
    }
  }

  // ---------------------------------------------------------------------------
  // A failed payout: when it can still be paid
  // ---------------------------------------------------------------------------

  predicate NobodyHolds(w: World, p: nat) {
    forall c :: c in w.callers ==> w.callers[c] != Claimed(p)
  }

  /** Failed, never transferred and in nobody's hands. */
  predicate Dead(w: World, p: nat) {
    p in w.payouts && w.payouts[p].status == FAILED && PayoutKey(p) !in w.provider && NobodyHolds(w, p)
  }

  lemma DeadStep(w: World, p: nat, step: Step)
    requires Inv(w) && Dead(w, p) && Enabled(w, step)
    ensures Dead(Next(w, step), p)
  {
    if step.WritePaid? {
      assert PcFits(w, w.callers[step.c]);
    }
  }

  lemma {:induction false} DeadRun(w: World, p: nat, steps: seq<Step>)
    requires Inv(w) && Dead(w, p) && IsRun(Next, w, steps, AnyStep)
    ensures Dead(Run(Next, w, steps, AnyStep), p)
    decreases |steps|
  {
    if steps != [] {
      DeadStep(w, p, steps[0]);
      StepInv(w, steps[0]);
      DeadRun(Next(w, steps[0]), p, steps[1..]);
    }
  }

  ghost predicate NeverTransfers(w: World, p: nat) {
    forall steps :: IsRun(Next, w, steps, AnyStep) ==> PayoutKey(p) !in Run(Next, w, steps, AnyStep).provider
  }

  /**
   Marking a payout FAILED "so it never is" paid holds exactly when no worker is already past its claim and no
   transfer went out unheard.
   */
  lemma FailedIsNeverPaidIff(w: World, p: nat)
    requires Inv(w) && p in w.payouts && w.payouts[p].status == FAILED
    ensures NeverTransfers(w, p) <==> PayoutKey(p) !in w.provider && NobodyHolds(w, p)
  {
    if PayoutKey(p) !in w.provider && NobodyHolds(w, p) {
      forall steps | IsRun(Next, w, steps, AnyStep) ensures PayoutKey(p) !in Run(Next, w, steps, AnyStep).provider {
        DeadRun(w, p, steps);
      }
    } else if PayoutKey(p) in w.provider {
      assert IsRun(Next, w, [], AnyStep) && Run(Next, w, [], AnyStep) == w;
    } else {
      var c :| c in w.callers && w.callers[c] == Claimed(p);
      assert Enabled(w, Pay(c));
      StepThenRun(Next, w, Pay(c), [], AnyStep);
    }
  }

  function PayingUp(c: nat): seq<Step> {
    [Pay(c)] + ([WritePaid(c)] + [])
  }

  /** Such a worker then leaves the payout PAID, however it was failed. */
  lemma FailedPayoutTurnsPaid(w: World, p: nat, c: nat)
    requires p in w.payouts && w.payouts[p].status == FAILED
    requires c in w.callers && w.callers[c] == Claimed(p)
    ensures IsRun(Next, w, PayingUp(c), AnyStep)
    ensures var t := Run(Next, w, PayingUp(c), AnyStep);
            p in t.payouts && t.payouts[p].status == PAID
  {
    var t := Next(w, Pay(c));
    assert Enabled(t, WritePaid(c));
    StepThenRun(Next, t, WritePaid(c), [], AnyStep);
    StepThenRun(Next, w, Pay(c), [WritePaid(c)] + [], AnyStep);
  }

  /** A worker claims the payout; then its order is refunded in full. */
  function Overtaken(p: nat, order: nat, net: nat, c: nat): seq<Step> {
    [CreatePayout(p, order, net)] + ([Start(c, p)] + ([FullRefund(order)] + []))
  }

  /** From an empty world: a payout marked FAILED by a full refund, and PAID all the same. */
  lemma FailedThenPaidFromNew(now: int, p: nat, order: nat, net: nat, c: nat)
    ensures IsRun(Next, NewWorld(now), Overtaken(p, order, net, c), AnyStep)
    ensures var w := Run(Next, NewWorld(now), Overtaken(p, order, net, c), AnyStep);
            && p in w.payouts && w.payouts[p].status == FAILED && PayoutKey(p) !in w.provider
            && IsRun(Next, w, PayingUp(c), AnyStep)
            && var t := Run(Next, w, PayingUp(c), AnyStep);
            p in t.payouts && t.payouts[p].status == PAID
  {
    var w1 := Next(NewWorld(now), CreatePayout(p, order, net));
    var w2 := Next(w1, Start(c, p));
    var w3 := Next(w2, FullRefund(order));
    assert w3.payouts[p].status == FAILED && w3.callers[c] == Claimed(p);
    StepThenRun(Next, w2, FullRefund(order), [], AnyStep);
    StepThenRun(Next, w1, Start(c, p), [FullRefund(order)] + [], AnyStep);
    StepThenRun(Next, NewWorld(now), CreatePayout(p, order, net), [Start(c, p)] + ([FullRefund(order)] + []), AnyStep);
    FailedPayoutTurnsPaid(w3, p, c);
  }

  // ---------------------------------------------------------------------------
  // Reversals: one for each amount asked
  // ---------------------------------------------------------------------------

  /** Refunds of payout `p`'s sub-order only ever ask for reversals in `amounts`. */
  ghost predicate Asks(p: nat, amounts: set<nat>, w: World, step: Step) {
    step.BeginReversal? && step.payout == p && p in w.payouts && step.den > 0 ==>
      ReversalAmount(w.payouts[p].net, step.num, step.den) in amounts
  }

  ghost function Asking(p: nat, amounts: set<nat>): (World, Step) -> bool {
    (w: World, step: Step) => Asks(p, amounts, w, step)
  }

  ghost predicate ReversedWithin(w: World, p: nat, amounts: set<nat>) {
    && (forall a: nat :: ReverseKey(p, a) in w.provider ==> a in amounts)
    && (forall c :: c in w.callers && w.callers[c].Reversing? && w.callers[c].payout == p ==>
          w.callers[c].amount in amounts)
  }

  lemma ReversedWithinStep(w: World, p: nat, amounts: set<nat>, step: Step)
    requires ReversedWithin(w, p, amounts) && Enabled(w, step) && Asks(p, amounts, w, step)
    ensures ReversedWithin(Next(w, step), p, amounts)
  {
  }

  lemma {:induction false} ReversedWithinRun(w: World, p: nat, amounts: set<nat>, steps: seq<Step>,
                                             ok: (World, Step) -> bool)
    requires forall v: World, step: Step :: ok(v, step) ==> Asks(p, amounts, v, step)
    requires ReversedWithin(w, p, amounts) && IsRun(Next, w, steps, ok)
    ensures ReversedWithin(Run(Next, w, steps, ok), p, amounts)
    decreases |steps|
  {
    if steps != [] {
      ReversedWithinStep(w, p, amounts, steps[0]);
      ReversedWithinRun(Next(w, steps[0]), p, amounts, steps[1..], ok);
    }
  }

  ghost predicate AtMostOneReversal(w: World, p: nat) {
    forall a: nat, b: nat :: ReverseKey(p, a) in w.provider && ReverseKey(p, b) in w.provider ==> a == b
  }

  ghost predicate AlwaysAtMostOneReversal(w: World, p: nat, amounts: set<nat>) {
    var ok := Asking(p, amounts);
    forall steps :: IsRun(Next, w, steps, ok) ==> AtMostOneReversal(Run(Next, w, steps, ok), p)
  }

  lemma ExactShare(net: nat, a: nat)
    requires 0 < a <= net
    ensures ReversalAmount(net, a, net) == a
  {
    HalfEvenNearest(net * a, net);
    assert net * a == a * net;
    NearestBetween(HalfEven(net * a, net), net * a, net, a, a);
  }

  /** Two refunds that both find the payout PAID each reverse their own amount. */
  function TwoReversals(p: nat, net: nat, c: nat, a: nat, b: nat): seq<Step> {
    [BeginReversal(c, p, a, net), BeginReversal(c + 1, p, b, net), Reverse(c), Reverse(c + 1)]
  }

  lemma TwoReversalsStates(w: World, p: nat, c: nat, a: nat, b: nat) returns (w1: World, w2: World, w3: World)
    requires Inv(w) && p in w.payouts && w.payouts[p].status == PAID
    requires 0 < a <= w.payouts[p].net && 0 < b <= w.payouts[p].net
    requires c !in w.callers && c + 1 !in w.callers
    ensures var steps := TwoReversals(p, w.payouts[p].net, c, a, b);
            && Enabled(w, steps[0]) && w1 == Next(w, steps[0]) && w1.payouts == w.payouts
            && Enabled(w1, steps[1]) && w2 == Next(w1, steps[1]) && w2.payouts == w.payouts
            && Enabled(w2, steps[2]) && w3 == Next(w2, steps[2]) && w3.payouts == w.payouts
            && Enabled(w3, steps[3])
            && ReverseKey(p, a) in Next(w3, steps[3]).provider && ReverseKey(p, b) in Next(w3, steps[3]).provider
  {
    assert RowFits(w, p);
    var net, id := w.payouts[p].net, w.payouts[p].transferId.value;
    ExactShare(net, a);
    ExactShare(net, b);
    var steps := TwoReversals(p, net, c, a, b);
    w1 := Next(w, steps[0]);
    assert w1.callers[c] == Reversing(p, id, a);
    w2 := Next(w1, steps[1]);
    assert w2.callers[c] == Reversing(p, id, a) && w2.callers[c + 1] == Reversing(p, id, b);
    w3 := Next(w2, steps[2]);
  }

  lemma TwoReversalsRun(w: World, p: nat, c: nat, a: nat, b: nat, ok: (World, Step) -> bool)
    requires Inv(w) && p in w.payouts && w.payouts[p].status == PAID
    requires 0 < a <= w.payouts[p].net && 0 < b <= w.payouts[p].net
    requires c !in w.callers && c + 1 !in w.callers
    requires forall v: World, step: Step ::
               step in TwoReversals(p, w.payouts[p].net, c, a, b) && v.payouts == w.payouts ==> ok(v, step)
    ensures var steps := TwoReversals(p, w.payouts[p].net, c, a, b);
            && IsRun(Next, w, steps, ok)
            && var t := Run(Next, w, steps, ok);
            ReverseKey(p, a) in t.provider && ReverseKey(p, b) in t.provider
  {
    var steps := TwoReversals(p, w.payouts[p].net, c, a, b);
    var w1, w2, w3 := TwoReversalsStates(w, p, c, a, b);
    assert steps[0] in steps && steps[1] in steps && steps[2] in steps && steps[3] in steps;
    var last := [steps[3]] + [];
    var later := [steps[2]] + last;
    var rest := [steps[1]] + later;
    StepThenRun(Next, w3, steps[3], [], ok);
    StepThenRun(Next, w2, steps[2], last, ok);
    StepThenRun(Next, w1, steps[1], later, ok);
    StepThenRun(Next, w, steps[0], rest, ok);
    assert steps == [steps[0]] + rest;
  }

  /**
   A paid payout, not reversed yet, is reversed at most once in every run exactly when all refunds of its
   sub-order that reverse anything ask for the same amount: the reversal is keyed by its pence.
   */
  lemma OneReversalIff(w: World, p: nat, amounts: set<nat>)
    requires Inv(w) && p in w.payouts && w.payouts[p].status == PAID && ReversedWithin(w, p, {})
    ensures AlwaysAtMostOneReversal(w, p, amounts) <==>
            var asked := Reversible(w.payouts[p].net, amounts);
            forall a: nat, b: nat :: a in asked && b in asked ==> a == b
  {
    var ok := Asking(p, amounts);
    var asked := Reversible(w.payouts[p].net, amounts);
    if forall a: nat, b: nat :: a in asked && b in asked ==> a == b {
      forall steps | IsRun(Next, w, steps, ok) ensures AtMostOneReversal(Run(Next, w, steps, ok), p) {
        var t := Run(Next, w, steps, ok);
        RunInv(w, steps, ok);
        NetStays(w, p, steps, ok);
        ReversedWithinRun(w, p, amounts, steps, ok);
        ReversedPenceWithin(t, p, amounts);
        assert forall a: nat :: ReverseKey(p, a) in t.provider ==> a in ReversedPence(t, p);
      }
    } else {
      var a, b :| a in asked && b in asked && a != b;
      var c := FreshId(w.callers.Keys);
      ExactShare(w.payouts[p].net, a);
      ExactShare(w.payouts[p].net, b);
      TwoReversalsRun(w, p, c, a, b, ok);
    }
  }

  // ---------------------------------------------------------------------------
  // Reversals: their sum
  // ---------------------------------------------------------------------------

  function Plain(): int -> int {
    (a: int) => a
  }

  ghost function AmountsTotal(amounts: set<nat>): int {
    SumMap(map a | a in amounts :: a, Plain())
  }

  /** The pence of each reversal made of payout `p`: its key's, and by `PaidMeansTransferred` its own. */
  function ReversedPence(w: World, p: nat): set<nat> {
    set k | k in w.provider && k.ReverseKey? && k.payout == p :: k.pence
  }

  ghost function ReversedTotal(w: World, p: nat): int {
    AmountsTotal(ReversedPence(w, p))
  }

  lemma SubsetTotal(a: set<nat>, b: set<nat>)
    requires a <= b
    ensures AmountsTotal(a) <= AmountsTotal(b)
  {
    SumMapDominated(map x | x in a :: x, Plain(), map x | x in b :: x, Plain());
  }

  /** The reversals these refunds can bring about. */
  function Reversible(net: nat, amounts: set<nat>): set<nat> {
    set a | a in amounts && 0 < a <= net
  }

  lemma ReversedPenceWithin(w: World, p: nat, amounts: set<nat>)
    requires Inv(w) && p in w.payouts && ReversedWithin(w, p, amounts)
    ensures ReversedPence(w, p) <= Reversible(w.payouts[p].net, amounts)
  {
    forall a | a in ReversedPence(w, p) ensures a in amounts && 0 < a <= w.payouts[p].net {
      assert ReverseKey(p, a) in w.provider;
      assert OpFits(w, ReverseKey(p, a));
    }
  }

  lemma {:induction false} NetStays(w: World, p: nat, steps: seq<Step>, ok: (World, Step) -> bool)
    requires p in w.payouts && IsRun(Next, w, steps, ok)
    ensures p in Run(Next, w, steps, ok).payouts && Run(Next, w, steps, ok).payouts[p].net == w.payouts[p].net
    decreases |steps|
  {
    if steps != [] {
      NetStays(Next(w, steps[0]), p, steps[1..], ok);
    }
  }

  /** A refund reverses its amount, and crashes before it can mark the payout REVERSED. */
  function ReverseAndCrash(c: nat, p: nat, a: nat, net: nat): seq<Step> {
    [BeginReversal(c, p, a, net)] + ([Reverse(c)] + ([Crash(c)] + []))
  }

  ghost predicate Reversable(w: World, p: nat, net: nat, c: nat) {
    Inv(w) && p in w.payouts && w.payouts[p].status == PAID && w.payouts[p].net == net && Idle(w, c)
  }

  lemma OneMoreReversalStates(w: World, p: nat, net: nat, c: nat, a: nat) returns (w1: World, w2: World, t: World)
    requires Reversable(w, p, net, c) && 0 < a <= net
    ensures Enabled(w, BeginReversal(c, p, a, net)) && w1 == Next(w, BeginReversal(c, p, a, net))
    ensures Enabled(w1, Reverse(c)) && w2 == Next(w1, Reverse(c))
    ensures Enabled(w2, Crash(c)) && t == Next(w2, Crash(c))
    ensures t.payouts == w.payouts && Idle(t, c) && ReverseKey(p, a) in t.provider
    ensures forall k :: k in w.provider ==> k in t.provider
  {
    assert RowFits(w, p);
    ExactShare(net, a);
    w1 := Next(w, BeginReversal(c, p, a, net));
    assert w1.callers[c] == Reversing(p, w.payouts[p].transferId.value, a) && w1.payouts == w.payouts;
    w2 := Next(w1, Reverse(c));
    t := Next(w2, Crash(c));
  }

  lemma OneMoreReversal(w: World, p: nat, net: nat, c: nat, a: nat, amounts: set<nat>) returns (t: World)
    requires Reversable(w, p, net, c) && a in amounts && 0 < a <= net
    ensures var ok := Asking(p, amounts);
            IsRun(Next, w, ReverseAndCrash(c, p, a, net), ok) && t == Run(Next, w, ReverseAndCrash(c, p, a, net), ok)
    ensures Reversable(t, p, net, c) && a in ReversedPence(t, p) && ReversedPence(w, p) <= ReversedPence(t, p)
  {
    var ok := Asking(p, amounts);
    ExactShare(net, a);
    var w1, w2, u := OneMoreReversalStates(w, p, net, c, a);
    t := u;
    StepThenRun(Next, w2, Crash(c), [], ok);
    StepThenRun(Next, w1, Reverse(c), [Crash(c)] + [], ok);
    StepThenRun(Next, w, BeginReversal(c, p, a, net), [Reverse(c)] + ([Crash(c)] + []), ok);
    RunInv(w, ReverseAndCrash(c, p, a, net), ok);
    assert ReverseKey(p, a) in t.provider;
  }

  lemma {:induction false} ReverseAll(w: World, p: nat, net: nat, c: nat, left: set<nat>, amounts: set<nat>)
    returns (steps: seq<Step>)
    requires Reversable(w, p, net, c) && left <= Reversible(net, amounts)
    ensures var ok := Asking(p, amounts);
            IsRun(Next, w, steps, ok) && ReversedPence(w, p) + left <= ReversedPence(Run(Next, w, steps, ok), p)
    decreases |left|
  {
    var ok := Asking(p, amounts);
    if left == {} {
      steps := [];
    } else {
      var a :| a in left;
      var t := OneMoreReversal(w, p, net, c, a, amounts);
      var rest := ReverseAll(t, p, net, c, left - {a}, amounts);
      RunConcat(Next, w, ReverseAndCrash(c, p, a, net), rest, ok);
      steps := ReverseAndCrash(c, p, a, net) + rest;
    }
  }

  ghost predicate AlwaysWithinNet(w: World, p: nat, net: nat, amounts: set<nat>) {
    var ok := Asking(p, amounts);
    forall steps :: IsRun(Next, w, steps, ok) ==> ReversedTotal(Run(Next, w, steps, ok), p) <= net
  }

  /**
   What is taken back from a paid payout stays within its net in every run exactly when the different amounts its
   refunds can ask for add up to no more than the net.
   */
  lemma ReversalsWithinNetIff(w: World, p: nat, amounts: set<nat>)
    requires Inv(w) && p in w.payouts && w.payouts[p].status == PAID && ReversedWithin(w, p, {})
    ensures AlwaysWithinNet(w, p, w.payouts[p].net, amounts) <==>
            AmountsTotal(Reversible(w.payouts[p].net, amounts)) <= w.payouts[p].net
  {
    var ok := Asking(p, amounts);
    var net := w.payouts[p].net;
    if AmountsTotal(Reversible(net, amounts)) <= net {
      forall steps | IsRun(Next, w, steps, ok) ensures ReversedTotal(Run(Next, w, steps, ok), p) <= net {
        var t := Run(Next, w, steps, ok);
        RunInv(w, steps, ok);
        NetStays(w, p, steps, ok);
        ReversedWithinRun(w, p, amounts, steps, ok);
        ReversedPenceWithin(t, p, amounts);
        SubsetTotal(ReversedPence(t, p), Reversible(net, amounts));
      }
    } else {
      var c := FreshId(w.callers.Keys);
      var steps := ReverseAll(w, p, net, c, Reversible(net, amounts), amounts);
      SubsetTotal(Reversible(net, amounts), ReversedPence(Run(Next, w, steps, ok), p));
    }
  }

  // ---------------------------------------------------------------------------
  // The same from an empty world
  // ---------------------------------------------------------------------------

  /** A payout created, claimed and transferred, and the transfer recorded. */
  lemma PaymentSteps(now: int, p: nat, order: nat, net: nat, c: nat) returns (w1: World, w2: World, w3: World, w: World)
    ensures Enabled(NewWorld(now), CreatePayout(p, order, net))
    ensures w1 == Next(NewWorld(now), CreatePayout(p, order, net))
    ensures Enabled(w1, Start(c, p)) && w2 == Next(w1, Start(c, p))
    ensures Enabled(w2, Pay(c)) && w3 == Next(w2, Pay(c))
    ensures Enabled(w3, WritePaid(c)) && w == Next(w3, WritePaid(c))
    ensures w.payouts == map[p := Payout(order, net, PAID, Some(0), Some(now))]
    ensures w.provider == map[PayoutKey(p) := Transfer(0, net)] && w.callers == map[c := Ended]
  {
    w1 := Next(NewWorld(now), CreatePayout(p, order, net));
    w2 := Next(w1, Start(c, p));
    assert w2.callers == map[c := Claimed(p)] && w2.payouts[p].net == net;
    w3 := Next(w2, Pay(c));
    assert w3.callers == map[c := Sent(p, 0)] && w3.provider == map[PayoutKey(p) := Transfer(0, net)];
    w := Next(w3, WritePaid(c));
  }

  predicate PaidUp(w: World, p: nat, net: nat, c: nat) {
    && p in w.payouts && w.payouts[p].status == PAID && w.payouts[p].net == net
    && w.payouts[p].transferId == Some(0)
    && w.payouts.Keys == {p} && w.provider == map[PayoutKey(p) := Transfer(0, net)] && w.callers == map[c := Ended]
  }

  /** What `OneReversalIff` and `ReversalsWithinNetIff` start from. */
  lemma PaidUpFits(w: World, p: nat, net: nat, c: nat)
    requires PaidUp(w, p, net, c)
    ensures Inv(w) && ReversedWithin(w, p, {})
  {
  }

  lemma PaidFromNew(now: int, p: nat, order: nat, net: nat, c: nat, amounts: set<nat>, goal: World -> bool)
    returns (w: World)
    ensures PaidUp(w, p, net, c)
    ensures CanReach(Next, w, Asking(p, amounts), goal) ==> CanReach(Next, NewWorld(now), Asking(p, amounts), goal)
  {
    var ok := Asking(p, amounts);
    var w1, w2, w3, u := PaymentSteps(now, p, order, net, c);
    w := u;
    if CanReach(Next, w, ok, goal) {
      ReachNext(Next, w3, WritePaid(c), ok, goal);
      ReachNext(Next, w2, Pay(c), ok, goal);
      ReachNext(Next, w1, Start(c, p), ok, goal);
      ReachNext(Next, NewWorld(now), CreatePayout(p, order, net), ok, goal);
    }
  }

  /** Payout `p` has been reversed twice, by `a` pence and by `b`. */
  function ReversedBy(p: nat, net: nat, a: nat, b: nat): World -> bool {
    (w: World) =>
      && p in w.payouts && w.payouts[p].net == net
      && ReverseKey(p, a) in w.provider && ReverseKey(p, b) in w.provider
  }

  /** Whatever two amounts refunds of one sub-order ask for, both can be taken back, past the net or not. */
  lemma ReversedTwiceFromNew(now: int, p: nat, order: nat, net: nat, a: nat, b: nat)
    requires 0 < a <= net && 0 < b <= net
    ensures CanReach(Next, NewWorld(now), Asking(p, {a, b}), ReversedBy(p, net, a, b))
  {
    var goal := ReversedBy(p, net, a, b);
    var c := 0;
    var w := PaidFromNew(now, p, order, net, c, {a, b}, goal);
    PaidUpFits(w, p, net, c);
    var ok := Asking(p, {a, b});
    ExactShare(net, a);
    ExactShare(net, b);
    TwoReversalsRun(w, p, c + 1, a, b, ok);
    NetStays(w, p, TwoReversals(p, net, c + 1, a, b), ok);
    assert goal(Run(Next, w, TwoReversals(p, net, c + 1, a, b), ok));
  }
}
