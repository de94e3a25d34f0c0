/** Who may work on a payout and when, and what each ending does to it. */
module PayoutOutcomes {
  import opened Results
  import opened Runs
  import opened Rounding
  import opened PayoutProtocol
  import opened PayoutProofs

  // ---------------------------------------------------------------------------
  // Claiming a payout
  // ---------------------------------------------------------------------------

  /** A worker may start on a payout exactly when it is pending, or was started ten minutes ago or more. */
  lemma StartsIff(w: World, c: nat, p: nat)
    requires Enabled(w, Start(c, p))
    ensures var (row, t) := (w.payouts[p], Next(w, Start(c, p)));
            && (t.callers[c] == Claimed(p) <==>
                || row.status == PENDING
                || (row.status == PROCESSING && (row.startedAt.Some? ==> w.now - row.startedAt.value >= 600)))
            && (if t.callers[c] == Claimed(p) then
                  t == WithCaller(WithRow(w, p, row.(status := PROCESSING, startedAt := Some(w.now))), c, Claimed(p))
                else t == WithCaller(w, c, Ended))
  {
  }

  /** Less than ten minutes after `since`, and nobody finds the supplier not onboarded. */
  predicate Soon(since: int, w: World, step: Step) {
    w.now - since < 600 && !step.NotOnboarded?
  }

  function SoonAfter(since: int): (World, Step) -> bool {
    (w: World, step: Step) => Soon(since, w, step)
  }

  /** Payout `p` was started at `since` and has not been put back; nobody but `c` is past its claim. */
  ghost predicate InHandsOf(w: World, p: nat, c: nat, since: int) {
    && p in w.payouts && w.payouts[p].status != PENDING
    && (w.payouts[p].status == PROCESSING ==> w.payouts[p].startedAt == Some(since))
    && forall d :: d in w.callers && w.callers[d] == Claimed(p) ==> d == c
  }

  lemma HandsStay(w: World, p: nat, c: nat, since: int, step: Step)
    requires InHandsOf(w, p, c, since) && Enabled(w, step) && Soon(since, w, step)
    ensures InHandsOf(Next(w, step), p, c, since)
  {
  }

  lemma {:induction false} HandsStayRun(w: World, p: nat, c: nat, since: int, steps: seq<Step>)
    requires InHandsOf(w, p, c, since) && IsRun(Next, w, steps, SoonAfter(since))
    ensures InHandsOf(Run(Next, w, steps, SoonAfter(since)), p, c, since)
    decreases |steps|
  {
    if steps != [] {
      assert Enabled(w, steps[0]);
      HandsStay(w, p, c, since, steps[0]);
      HandsStayRun(Next(w, steps[0]), p, c, since, steps[1..]);
    }
  }

  ghost predicate HeldByAnother(w: World, p: nat, c: nat) {
    exists d :: d != c && d in w.callers && w.callers[d] == Claimed(p)
  }

  /**
   A worker that starts on a payout nobody else is working on is alone with it for ten minutes: in no run until then
   does another get past the claim, unless the payout is put back for want of onboarding.
   */
  lemma AloneForTenMinutes(w: World, c: nat, p: nat, steps: seq<Step>)
    requires Enabled(w, Start(c, p)) && NobodyHolds(w, p) && Next(w, Start(c, p)).callers[c] == Claimed(p)
    requires IsRun(Next, Next(w, Start(c, p)), steps, SoonAfter(w.now))
    ensures !HeldByAnother(Run(Next, Next(w, Start(c, p)), steps, SoonAfter(w.now)), p, c)
  {
    StartsIff(w, c, p);
    HandsStayRun(Next(w, Start(c, p)), p, c, w.now, steps);
  }

  /** After ten minutes, another may take it over. */
  lemma TakenOverAfterTenMinutes(w: World, c: nat, p: nat, d: nat)
    requires Enabled(w, Start(c, p)) && Next(w, Start(c, p)).callers[c] == Claimed(p) && d != c && Idle(w, d)
    ensures var t := Next(Next(w, Start(c, p)), Tick(600));
            Enabled(t, Start(d, p)) && HeldByAnother(Next(t, Start(d, p)), p, c)
  {
    StartsIff(w, c, p);
    var t := Next(Next(w, Start(c, p)), Tick(600));
    StartsIff(t, d, p);
    assert Next(t, Start(d, p)).callers[d] == Claimed(p);
  }

  // ---------------------------------------------------------------------------
  // Endings
  // ---------------------------------------------------------------------------

  /** A worker the provider refuses fails the payout, unless another has recorded it PAID; no money has moved. */
  lemma RefusedPayoutFails(w: World, c: nat, p: nat)
    requires c in w.callers && w.callers[c] == Claimed(p) && p in w.payouts
    ensures Enabled(w, PayRefused(c)) && Enabled(Next(w, PayRefused(c)), WriteError(c))
    ensures var t := Next(Next(w, PayRefused(c)), WriteError(c));
            && t.provider == w.provider && t.callers == w.callers[c := Ended]
            && t.payouts == w.payouts[p :=
                 w.payouts[p].(status := if w.payouts[p].status == PAID then PAID else FAILED)]
  {
    var t := Next(Next(w, PayRefused(c)), WriteError(c));
    assert t.callers == w.callers[c := Ended];
  }

  /** A supplier not onboarded yet: the payout is pending again, and can be started at once. */
  lemma NotOnboardedIsPending(w: World, c: nat, p: nat)
    requires c in w.callers && w.callers[c] == Claimed(p) && p in w.payouts
    ensures Enabled(w, NotOnboarded(c))
    ensures var t := Next(w, NotOnboarded(c));
            && t == w.(payouts := w.payouts[p := w.payouts[p].(status := PENDING)], callers := w.callers[c := Ended])
            && Enabled(t, Start(c, p)) && Next(t, Start(c, p)).callers[c] == Claimed(p)
  {
  }

  /** A worker the provider pays moves exactly the net, once, and leaves the payout PAID with the transfer's id. */
  lemma PaidPayout(w: World, c: nat, p: nat)
    requires Inv(w) && c in w.callers && w.callers[c] == Claimed(p)
    ensures p in w.payouts && Enabled(w, Pay(c)) && Enabled(Next(w, Pay(c)), WritePaid(c))
    ensures var t := Next(Next(w, Pay(c)), WritePaid(c));
            && PayoutKey(p) in t.provider && t.provider[PayoutKey(p)].Transfer?
            && t.provider[PayoutKey(p)].amount == w.payouts[p].net
            && (forall k :: k != PayoutKey(p) ==> (k in t.provider <==> k in w.provider))
            && (forall k :: k in w.provider ==> k in t.provider && t.provider[k] == w.provider[k])
            && t.payouts == w.payouts[p :=
                 w.payouts[p].(status := PAID, transferId := Some(t.provider[PayoutKey(p)].id))]
            && t.callers == w.callers[c := Ended]
  {
    assert PcFits(w, w.callers[c]);
    assert PayoutKey(p) in w.provider ==> OpFits(w, PayoutKey(p));
    var t := Next(Next(w, Pay(c)), WritePaid(c));
    assert t.callers == w.callers[c := Ended];
  }

  /** A full refund fails the order's payouts that are pending or in progress, and touches no other. */
  lemma FullRefundIs(w: World, order: nat, p: nat)
    requires p in w.payouts
    ensures var t := Next(w, FullRefund(order));
            && t.payouts.Keys == w.payouts.Keys && t.provider == w.provider && t.callers == w.callers
            && t.payouts[p] ==
               if w.payouts[p].order == order && w.payouts[p].status in {PENDING, PROCESSING}
               then w.payouts[p].(status := FAILED) else w.payouts[p]
  {
  }

  // ---------------------------------------------------------------------------
  // Reversals
  // ---------------------------------------------------------------------------

  /** Before it is paid a payout is failed instead of reversed; failed or reversed already, it is left alone. */
  lemma UnpaidIsNotReversed(w: World, c: nat, p: nat, num: nat, den: nat)
    requires Enabled(w, BeginReversal(c, p, num, den)) && p in w.payouts && w.payouts[p].status != PAID
    ensures var (row, t) := (w.payouts[p], Next(w, BeginReversal(c, p, num, den)));
            && t.provider == w.provider && t.callers == w.callers[c := Ended]
            && t.payouts == w.payouts[p :=
                 if row.status in {PENDING, PROCESSING} then row.(status := FAILED) else row]
  {
  }

  /** The share of the net that a refund of num / den takes back, to the penny: all of it from the whole on. */
  predicate IsShare(pence: nat, net: nat, num: nat, den: nat)
    requires den > 0
  {
    if num >= den then pence == net else NearestEven(pence, net * num, den)
  }

  /** A reversal, from its claim to the end; one of nothing is not sent to the provider. */
  function ReversalSteps(c: nat, p: nat, num: nat, den: nat, pence: nat): seq<Step> {
    [BeginReversal(c, p, num, den)] + ([if pence > 0 then Reverse(c) else SkipReversal(c)] + ([FinishReversal(c)] + []))
  }

  /** The provider has taken `pence` of payout `p`'s transfer back, by now or before. */
  ghost predicate TakenBack(w: World, t: World, p: nat, pence: nat) {
    && p in w.payouts && w.payouts[p].transferId.Some?
    && ReverseKey(p, pence) in t.provider && t.provider[ReverseKey(p, pence)].Reversal?
    && t.provider[ReverseKey(p, pence)].amount == pence
    && t.provider[ReverseKey(p, pence)].of == w.payouts[p].transferId.value
    && (forall k :: k != ReverseKey(p, pence) ==> (k in t.provider <==> k in w.provider))
    && (forall k :: k in w.provider ==> k in t.provider && t.provider[k] == w.provider[k])
  }

  /** Payout `p` is REVERSED and no other row has changed; the pence were taken back, if any. */
  ghost predicate ReversedOf(w: World, t: World, p: nat, pence: nat) {
    && p in w.payouts && t.payouts == w.payouts[p := w.payouts[p].(status := REVERSED)]
    && if pence > 0 then TakenBack(w, t, p, pence) else t.provider == w.provider
  }

  lemma ReversalStates(w: World, c: nat, p: nat, num: nat, den: nat, pence: nat)
    returns (t1: World, t2: World, t3: World)
    requires Inv(w) && Idle(w, c) && den > 0 && p in w.payouts && w.payouts[p].status == PAID
    requires pence == ReversalAmount(w.payouts[p].net, num, den)
    ensures var middle := if pence > 0 then Reverse(c) else SkipReversal(c);
            && Enabled(w, BeginReversal(c, p, num, den)) && t1 == Next(w, BeginReversal(c, p, num, den))
            && Enabled(t1, middle) && t2 == Next(t1, middle)
            && Enabled(t2, FinishReversal(c)) && t3 == Next(t2, FinishReversal(c))
    ensures ReversedOf(w, t3, p, pence)
  {
    assert RowFits(w, p);
    t1 := Next(w, BeginReversal(c, p, num, den));
    assert t1.callers[c] == Reversing(p, w.payouts[p].transferId.value, pence) && t1.payouts == w.payouts;
    assert ReverseKey(p, pence) in w.provider ==> OpFits(w, ReverseKey(p, pence));
    assert TransferIs(w, p, w.payouts[p].transferId.value);
    t2 := Next(t1, if pence > 0 then Reverse(c) else SkipReversal(c));
    t3 := Next(t2, FinishReversal(c));
  }

  /** A paid payout's reversal takes back the refund's share of its net, of its own transfer, and marks it REVERSED. */
  lemma PaidIsReversed(w: World, c: nat, p: nat, num: nat, den: nat) returns (pence: nat)
    requires Inv(w) && Idle(w, c) && den > 0 && p in w.payouts && w.payouts[p].status == PAID
    ensures IsShare(pence, w.payouts[p].net, num, den)
    ensures IsRun(Next, w, ReversalSteps(c, p, num, den, pence), AnyStep)
    ensures ReversedOf(w, Run(Next, w, ReversalSteps(c, p, num, den, pence), AnyStep), p, pence)
  {
    pence := ReversalAmount(w.payouts[p].net, num, den);
    var t1, t2, t3 := ReversalStates(w, c, p, num, den, pence);
    var middle := if pence > 0 then Reverse(c) else SkipReversal(c);
    ThreeSteps(Next, w, BeginReversal(c, p, num, den), t1, middle, t2, FinishReversal(c), t3, AnyStep);
  }
}
