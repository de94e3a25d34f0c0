/**
 What the refund ledger needs of its surroundings, exactly: for each liberty the surroundings may take, whether every
 run still stays within the payment, and whether it still keeps the books.
 */
module RefundLiberties {
  import opened Results
  import opened Runs
  import opened MapSums
  import opened RefundLedger
  import opened RefundProofs
  import opened RefundAccounting

  /**
   `shared`: two live callers on one key. `unheard`: a provider error that hides a refund. `bare`: webhooks without
   amounts. `over`: webhooks that report more than was refunded by then.
   */
  datatype Liberties = Liberties(shared: bool, unheard: bool, bare: bool, over: bool)

  ghost predicate Allowed(lib: Liberties, l: Ledger, step: Step) {
    && (lib.shared || ClaimsAlone(l, step))
    && (lib.unheard || !step.ExecuteUnheard?)
    && (step.Webhook? ==>
          if step.reported.None? then lib.bare else lib.over || step.reported.value.0 <= ProviderTotal(l))
  }

  ghost function With(lib: Liberties): (Ledger, Step) -> bool {
    (l, step) => Allowed(lib, l, step)
  }

  // ---------------------------------------------------------------------------
  // Runs from a new ledger that take one liberty
  // ---------------------------------------------------------------------------

  predicate Moves(l: Ledger, step: Step, t: Ledger, ok: (Ledger, Step) -> bool) {
    Enabled(l, step) && ok(l, step) && Next(l, step) == t
  }

  lemma MovesRun(state: nat -> Ledger, steps: seq<Step>, ok: (Ledger, Step) -> bool)
    requires forall j: nat :: j < |steps| ==> Moves(state(j), steps[j], state(j + 1), ok)
    ensures IsRun(Next, state(0), steps, ok) && Run(Next, state(0), steps, ok) == state(|steps|)
  {
    forall j: nat | j < |steps| ensures Leads(Next, state(j), steps[j], state(j + 1), ok) {
      assert Moves(state(j), steps[j], state(j + 1), ok);
    }
    StatesRun(Next, state, steps, ok);
  }

  function TwoRefunds(a: nat): map<Key, Refund> {
    map[Named(0) := Refund(0, a)][Named(1) := Refund(1, a)]
  }

  lemma TwoRefundsTotal(a: nat)
    ensures SumMap(TwoRefunds(a), RefundAmount()) == 2 * a
  {
    SumMapOne(RefundAmount(), Named(0), Refund(0, a));
    SumMapInsert(map[Named(0) := Refund(0, a)], RefundAmount(), Named(1), Refund(1, a));
  }

  /** Two live callers on one key: the one that reserved releases after the other has executed. */
  function SharedKeySteps(): seq<Step> {
    [Claim(0, None, Some(Named(0))), Claim(1, None, Some(Named(0))), Execute(1), Refuse(0), Release(0),
     Claim(2, None, Some(Named(1))), Execute(2)]
  }

  /** The ledger before step `i` of that run, for a payment of `a`. */
  function SharedKeyState(a: nat, i: nat): Ledger {
    var k, m := Named(0), Named(1);
    var idle, held := Payment(a, SUCCEEDED, 0, 0), Payment(a, SUCCEEDED, 0, a);
    var row := map[k := Request(a, InFlight, None)];
    var paid := map[k := Refund(0, a)];
    match i
    case 0 => NewLedger(a)
    case 1 => Ledger(held, row, {}, map[], map[0 := Claimed(k, a, true)])
    case 2 => Ledger(held, row, {}, map[], map[0 := Claimed(k, a, true), 1 := Claimed(k, a, false)])
    case 3 => Ledger(held, row, {}, paid, map[0 := Claimed(k, a, true), 1 := Executed(k, 0)])
    case 4 => Ledger(held, row, {}, paid, map[0 := Errored(k, a, true), 1 := Executed(k, 0)])
    case 5 => Ledger(idle, map[k := Request(a, Failed, None)], {}, paid, map[0 := Raised, 1 := Executed(k, 0)])
    case 6 =>
      Ledger(held, map[k := Request(a, Failed, None), m := Request(a, InFlight, None)], {}, paid,
             map[0 := Raised, 1 := Executed(k, 0), 2 := Claimed(m, a, true)])
    case _ =>
      Ledger(held, map[k := Request(a, Failed, None), m := Request(a, InFlight, None)], {},
             paid[m := Refund(1, a)], map[0 := Raised, 1 := Executed(k, 0), 2 := Executed(m, 1)])
  }

  lemma SharedKeyCollision(lib: Liberties, a: nat, i: nat)
    requires lib.shared && a > 0 && i < 4
    ensures Moves(SharedKeyState(a, i), SharedKeySteps()[i], SharedKeyState(a, i + 1), With(lib))
  {
  }

  lemma SharedKeyReleased(lib: Liberties, a: nat)
    requires lib.shared && a > 0
    ensures Moves(SharedKeyState(a, 4), Release(0), SharedKeyState(a, 5), With(lib))
  {
  }

  lemma SharedKeyClaimedAnew(lib: Liberties, a: nat)
    requires lib.shared && a > 0
    ensures Moves(SharedKeyState(a, 5), Claim(2, None, Some(Named(1))), SharedKeyState(a, 6), With(lib))
  {
  }

  lemma SharedKeyExecutedAnew(lib: Liberties, a: nat)
    requires lib.shared && a > 0
    ensures Moves(SharedKeyState(a, 6), Execute(2), SharedKeyState(a, 7), With(lib))
  {
  }

  lemma SharedKeySecondRefund(lib: Liberties, a: nat, i: nat)
    requires lib.shared && a > 0 && 4 <= i < 7
    ensures Moves(SharedKeyState(a, i), SharedKeySteps()[i], SharedKeyState(a, i + 1), With(lib))
  {
    if i == 4 {
      SharedKeyReleased(lib, a);
    } else if i == 5 {
      SharedKeyClaimedAnew(lib, a);
    } else {
      SharedKeyExecutedAnew(lib, a);
    }
  }

  lemma SharedKeyRun(lib: Liberties, a: nat)
    requires lib.shared && a > 0
    ensures IsRun(Next, NewLedger(a), SharedKeySteps(), With(lib))
    ensures Run(Next, NewLedger(a), SharedKeySteps(), With(lib)).provider == TwoRefunds(a)
  {
    var state := (i: nat) => SharedKeyState(a, i);
    forall i: nat | i < 7
      ensures Moves(state(i), SharedKeySteps()[i], state(i + 1), With(lib))
    {
      if i < 4 {
        SharedKeyCollision(lib, a, i);
      } else {
        SharedKeySecondRefund(lib, a, i);
      }
    }
    MovesRun(state, SharedKeySteps(), With(lib));
  }

  lemma SharedKeyRefundsTwice(lib: Liberties, a: nat)
    requires lib.shared && a > 0
    ensures IsRun(Next, NewLedger(a), SharedKeySteps(), With(lib))
    ensures ProviderTotal(Run(Next, NewLedger(a), SharedKeySteps(), With(lib))) == 2 * a
  {
    SharedKeyRun(lib, a);
    TwoRefundsTotal(a);
  }

  /** A refund the provider made but whose answer was lost: the release frees money that is gone. */
  function LostAnswerSteps(): seq<Step> {
    [Claim(0, None, Some(Named(0))), ExecuteUnheard(0), Release(0), Claim(0, None, Some(Named(1))), Execute(0)]
  }

  function LostAnswerState(a: nat, i: nat): Ledger {
    var k, m := Named(0), Named(1);
    var idle, held := Payment(a, SUCCEEDED, 0, 0), Payment(a, SUCCEEDED, 0, a);
    var row := map[k := Request(a, InFlight, None)];
    var failed := map[k := Request(a, Failed, None)];
    var paid := map[k := Refund(0, a)];
    match i
    case 0 => NewLedger(a)
    case 1 => Ledger(held, row, {}, map[], map[0 := Claimed(k, a, true)])
    case 2 => Ledger(held, row, {}, paid, map[0 := Errored(k, a, true)])
    case 3 => Ledger(idle, failed, {}, paid, map[0 := Raised])
    case 4 => Ledger(held, failed[m := Request(a, InFlight, None)], {}, paid, map[0 := Claimed(m, a, true)])
    case _ =>
      Ledger(held, failed[m := Request(a, InFlight, None)], {}, paid[m := Refund(1, a)], map[0 := Executed(m, 1)])
  }

  lemma LostAnswerUnheard(lib: Liberties, a: nat, i: nat)
    requires lib.unheard && a > 0 && i < 2
    ensures Moves(LostAnswerState(a, i), LostAnswerSteps()[i], LostAnswerState(a, i + 1), With(lib))
  {
  }

  lemma LostAnswerReleased(lib: Liberties, a: nat)
    requires lib.unheard && a > 0
    ensures Moves(LostAnswerState(a, 2), Release(0), LostAnswerState(a, 3), With(lib))
  {
  }

  lemma LostAnswerHidden(lib: Liberties, a: nat, i: nat)
    requires lib.unheard && a > 0 && i < 3
    ensures Moves(LostAnswerState(a, i), LostAnswerSteps()[i], LostAnswerState(a, i + 1), With(lib))
  {
    if i < 2 {
      LostAnswerUnheard(lib, a, i);
    } else {
      LostAnswerReleased(lib, a);
    }
  }

  lemma LostAnswerClaimedAnew(lib: Liberties, a: nat)
    requires lib.unheard && a > 0
    ensures Moves(LostAnswerState(a, 3), Claim(0, None, Some(Named(1))), LostAnswerState(a, 4), With(lib))
  {
  }

  lemma LostAnswerExecutedAnew(lib: Liberties, a: nat)
    requires lib.unheard && a > 0
    ensures Moves(LostAnswerState(a, 4), Execute(0), LostAnswerState(a, 5), With(lib))
  {
  }

  lemma LostAnswerSecondRefund(lib: Liberties, a: nat, i: nat)
    requires lib.unheard && a > 0 && 3 <= i < 5
    ensures Moves(LostAnswerState(a, i), LostAnswerSteps()[i], LostAnswerState(a, i + 1), With(lib))
  {
    if i == 3 {
      LostAnswerClaimedAnew(lib, a);
    } else {
      LostAnswerExecutedAnew(lib, a);
    }
  }

  lemma LostAnswerEnds(a: nat)
    ensures ProviderTotal(LostAnswerState(a, 5)) == 2 * a
  {
    TwoRefundsTotal(a);
    assert LostAnswerState(a, 5).provider == TwoRefunds(a);
  }

  lemma LostAnswerRun(lib: Liberties, a: nat)
    requires lib.unheard && a > 0
    ensures IsRun(Next, NewLedger(a), LostAnswerSteps(), With(lib))
    ensures Run(Next, NewLedger(a), LostAnswerSteps(), With(lib)) == LostAnswerState(a, 5)
  {
    var state := (i: nat) => LostAnswerState(a, i);
    forall i: nat | i < 5 ensures Moves(state(i), LostAnswerSteps()[i], state(i + 1), With(lib)) {
      if i < 3 {
        LostAnswerHidden(lib, a, i);
      } else {
        LostAnswerSecondRefund(lib, a, i);
      }
    }
    MovesRun(state, LostAnswerSteps(), With(lib));
  }

  lemma LostAnswerRefundsTwice(lib: Liberties, a: nat)
    requires lib.unheard && a > 0
    ensures IsRun(Next, NewLedger(a), LostAnswerSteps(), With(lib))
    ensures ProviderTotal(Run(Next, NewLedger(a), LostAnswerSteps(), With(lib))) == 2 * a
  {
    LostAnswerRun(lib, a);
    LostAnswerEnds(a);
  }

  /** A webhook without amounts books the whole payment as refunded after a refund of one penny. */
  function BareWebhookSteps(): seq<Step> {
    [Claim(0, Some(1), Some(Named(0))), Execute(0), Complete(0), Webhook(None)]
  }

  function BareWebhookState(a: nat, i: nat): Ledger {
    var k := Named(0);
    var held := Payment(a, SUCCEEDED, 0, 1);
    var paid := map[k := Refund(0, 1)];
    match i
    case 0 => NewLedger(a)
    case 1 => Ledger(held, map[k := Request(1, InFlight, None)], {}, map[], map[0 := Claimed(k, 1, true)])
    case 2 => Ledger(held, map[k := Request(1, InFlight, None)], {}, paid, map[0 := Executed(k, 0)])
    case 3 => Ledger(held, map[k := Request(1, Completed, Some(0))], {}, paid, map[0 := Returned(k)])
    case _ =>
      Ledger(Payment(a, REFUNDED, a, 0), map[k := Request(1, Completed, Some(0))], {}, paid, map[0 := Returned(k)])
  }

  lemma BareWebhookStep(lib: Liberties, a: nat, i: nat)
    requires lib.bare && a > 1 && i < 4
    ensures Moves(BareWebhookState(a, i), BareWebhookSteps()[i], BareWebhookState(a, i + 1), With(lib))
  {
  }

  lemma BareWebhookOverstates(lib: Liberties, a: nat)
    requires lib.bare && a > 1
    ensures IsRun(Next, NewLedger(a), BareWebhookSteps(), With(lib))
    ensures var l := Run(Next, NewLedger(a), BareWebhookSteps(), With(lib));
            l.payment.refunded == a && ProviderTotal(l) == 1 && !BooksExact(l)
  {
    var state := (i: nat) => BareWebhookState(a, i);
    forall i: nat | i < 4 ensures Moves(state(i), BareWebhookSteps()[i], state(i + 1), With(lib)) {
      BareWebhookStep(lib, a, i);
    }
    MovesRun(state, BareWebhookSteps(), With(lib));
    SumMapOne(RefundAmount(), Named(0), Refund(0, 1));
    SumMapOne(LiveAmount(), Named(0), Request(1, Completed, Some(0)));
  }

  /** The shared-key run as far as its release; then the other caller completes the row that failed under it. */
  function CompletedAfterFailing(): seq<Step> {
    SharedKeySteps()[..5] + [Complete(1)]
  }

  function CompletedState(a: nat, i: nat): Ledger {
    if i < 6 then SharedKeyState(a, i)
    else
      Ledger(Payment(a, SUCCEEDED, 0, 0), map[Named(0) := Request(a, Completed, Some(0))], {},
             map[Named(0) := Refund(0, a)], map[0 := Raised, 1 := Returned(Named(0))])
  }

  lemma CompletedStep(lib: Liberties, a: nat)
    requires lib.shared && a > 0
    ensures Moves(SharedKeyState(a, 5), Complete(1), CompletedState(a, 6), With(lib))
  {
  }

  lemma SharedKeyBreaksBooks(lib: Liberties, a: nat)
    requires lib.shared && a > 0
    ensures IsRun(Next, NewLedger(a), CompletedAfterFailing(), With(lib))
    ensures !BooksExact(Run(Next, NewLedger(a), CompletedAfterFailing(), With(lib)))
  {
    var steps := CompletedAfterFailing();
    var state := (i: nat) => CompletedState(a, i);
    forall i: nat | i < 6 ensures Moves(state(i), steps[i], state(i + 1), With(lib)) {
      if i < 4 {
        SharedKeyCollision(lib, a, i);
      } else if i == 4 {
        SharedKeySecondRefund(lib, a, i);
      } else {
        CompletedStep(lib, a);
      }
    }
    MovesRun(state, steps, With(lib));
    SumMapOne(LiveAmount(), Named(0), Request(a, Completed, Some(0)));
  }

  /** The hidden refund of the lost-answer run, reported in time by an honest webhook. */
  function ReportedAfterFailing(a: nat): seq<Step> {
    LostAnswerSteps()[..3] + [Webhook(Some((a, a)))]
  }

  function ReportedState(a: nat, i: nat): Ledger {
    if i < 4 then LostAnswerState(a, i)
    else
      Ledger(Payment(a, REFUNDED, a, 0), map[Named(0) := Request(a, Failed, None)], {},
             map[Named(0) := Refund(0, a)], map[0 := Raised])
  }

  lemma ReportedStep(lib: Liberties, a: nat)
    requires lib.unheard && a > 0
    ensures Moves(LostAnswerState(a, 3), Webhook(Some((a, a))), ReportedState(a, 4), With(lib))
  {
    SumMapOne(RefundAmount(), Named(0), Refund(0, a));
  }

  lemma LostAnswerBreaksBooks(lib: Liberties, a: nat)
    requires lib.unheard && a > 0
    ensures IsRun(Next, NewLedger(a), ReportedAfterFailing(a), With(lib))
    ensures !BooksExact(Run(Next, NewLedger(a), ReportedAfterFailing(a), With(lib)))
  {
    var steps := ReportedAfterFailing(a);
    var state := (i: nat) => ReportedState(a, i);
    forall i: nat | i < 4 ensures Moves(state(i), steps[i], state(i + 1), With(lib)) {
      if i < 3 {
        LostAnswerHidden(lib, a, i);
      } else {
        ReportedStep(lib, a);
      }
    }
    MovesRun(state, steps, With(lib));
    SumMapOne(LiveAmount(), Named(0), Request(a, Failed, None));
  }

  /** A webhook before any refund at all. */
  lemma WebhookBreaksBooks(lib: Liberties, a: nat, reported: Option<(nat, nat)>)
    requires a > 0 && Reported(NewLedger(a), reported) > 0
    requires if reported.None? then lib.bare else lib.over
    ensures IsRun(Next, NewLedger(a), [Webhook(reported)], With(lib))
    ensures !BooksExact(Run(Next, NewLedger(a), [Webhook(reported)], With(lib)))
  {
    var l := NewLedger(a);
    assert IsRun(Next, Next(l, Webhook(reported)), [], With(lib));
    WebhookKeepsBooksIff(l, reported);
  }

  // ---------------------------------------------------------------------------
  // Exactly which liberties do harm
  // ---------------------------------------------------------------------------

  ghost predicate StaysWithinPayment(lib: Liberties, amount: nat) {
    forall steps :: IsRun(Next, NewLedger(amount), steps, With(lib)) ==>
      ProviderTotal(Run(Next, NewLedger(amount), steps, With(lib))) <= amount
  }

  /** Every run refunds at most the payment iff no key is shared and no refund goes unheard, whatever webhooks say. */
  lemma StaysWithinPaymentIff(lib: Liberties, amount: nat)
    requires amount > 0
    ensures StaysWithinPayment(lib, amount) <==> !lib.shared && !lib.unheard
  {
    if lib.shared {
      SharedKeyRefundsTwice(lib, amount);
    } else if lib.unheard {
      LostAnswerRefundsTwice(lib, amount);
    } else {
      forall steps | IsRun(Next, NewLedger(amount), steps, With(lib))
        ensures ProviderTotal(Run(Next, NewLedger(amount), steps, With(lib))) <= amount
      {
        NewIsExact(amount);
        RunGuarded(NewLedger(amount), steps, With(lib));
        GuardedStaysWithin(Run(Next, NewLedger(amount), steps, With(lib)));
      }
    }
  }

  ghost predicate BooksStayExact(lib: Liberties, amount: nat) {
    forall steps :: IsRun(Next, NewLedger(amount), steps, With(lib)) ==>
      BooksExact(Run(Next, NewLedger(amount), steps, With(lib)))
  }

  /** Every run keeps exact books iff none of the four liberties is taken. */
  lemma BooksStayExactIff(lib: Liberties, amount: nat)
    requires amount > 0
    ensures BooksStayExact(lib, amount) <==> !lib.shared && !lib.unheard && !lib.bare && !lib.over
  {
    if lib.shared {
      SharedKeyBreaksBooks(lib, amount);
    } else if lib.unheard {
      LostAnswerBreaksBooks(lib, amount);
    } else if lib.bare {
      WebhookBreaksBooks(lib, amount, None);
    } else if lib.over {
      WebhookBreaksBooks(lib, amount, Some((1, amount)));
    } else {
      forall steps | IsRun(Next, NewLedger(amount), steps, With(lib))
        ensures BooksExact(Run(Next, NewLedger(amount), steps, With(lib)))
      {
        NewIsExact(amount);
        RunExact(NewLedger(amount), steps, With(lib));
      }
    }
  }
}
