/**
 Every interleaving of courier calls, failures and people's own steps: how often the courier is booked, and from
 where the fee's refund or the parcel's delivery can still be recorded.
 */
module DeliveryProofs {
  import opened Results
  import opened Runs
  import opened FreshIds
  import opened Delivery
  import Orders = StoreState

  // ---------------------------------------------------------------------------
  // Booking: a job for the row, and one for every booking that crashed
  // ---------------------------------------------------------------------------

  /** Bookings lost along a run: crashes between the courier's answer and the commit. */
  function Lost(s: System, steps: seq<Step>): nat
    requires IsRun(Next, s, steps, AnyStep)
    decreases |steps|
  {
    if steps == [] then 0
    else
      assert Enabled(s, steps[0]);
      (if steps[0].Crash? && s.calls[steps[0].h].Booking? then 1 else 0) + Lost(Next(s, steps[0]), steps[1..])
  }

  /** A call that has created a job holds the row, which is then still a quote. */
  ghost predicate BookingsHold(s: System) {
    && (forall h :: h in s.calls && s.calls[h].Booking? ==> s.holder == Some(h))
    && (s.holder.Some? ==> s.status == QUOTED && s.holder.value in s.calls && s.calls[s.holder.value].Booking?)
    && (s.status == QUOTED ==> forall h :: h in s.calls ==> s.calls[h].Booking? || s.calls[h].Ended?)
    && (forall h :: h in s.calls && s.calls[h].Seen? ==> s.calls[h].event != QUOTED)
  }

  function Recorded(s: System): nat {
    (if s.status != QUOTED then 1 else 0) + if s.holder.Some? then 1 else 0
  }

  lemma BookingStep(s: System, step: Step)
    requires BookingsHold(s) && Enabled(s, step)
    ensures BookingsHold(Next(s, step))
    ensures var lost := if step.Crash? && s.calls[step.h].Booking? then 1 else 0;
            Next(s, step).jobs - Recorded(Next(s, step)) == s.jobs - Recorded(s) + lost
  {
  }

  lemma {:induction false} JobsAccount(s: System, steps: seq<Step>)
    requires BookingsHold(s) && IsRun(Next, s, steps, AnyStep)
    ensures BookingsHold(Run(Next, s, steps, AnyStep))
    ensures var t := Run(Next, s, steps, AnyStep);
            t.jobs - Recorded(t) == s.jobs - Recorded(s) + Lost(s, steps)
    decreases |steps|
  {
    if steps != [] {
      BookingStep(s, steps[0]);
      JobsAccount(Next(s, steps[0]), steps[1..]);
    }
  }

  /** The courier has exactly one job for a booked delivery if and only if no booking crashed before its commit. */
  lemma BookedOnceIff(fee: nat, hasPayment: bool, steps: seq<Step>)
    requires IsRun(Next, Quoted(fee, hasPayment), steps, AnyStep)
    requires Run(Next, Quoted(fee, hasPayment), steps, AnyStep).status != QUOTED
    ensures Run(Next, Quoted(fee, hasPayment), steps, AnyStep).jobs == 1 + Lost(Quoted(fee, hasPayment), steps)
    ensures Run(Next, Quoted(fee, hasPayment), steps, AnyStep).jobs == 1 <==> Lost(Quoted(fee, hasPayment), steps) == 0
  {
    JobsAccount(Quoted(fee, hasPayment), steps);
  }

  // ---------------------------------------------------------------------------
  // Getting anywhere from here
  // ---------------------------------------------------------------------------

  /** What a handler that has read the row does: write its event, then deliver or refund. */
  function Finishing(s: System, h: nat): seq<Step>
    requires h in s.calls && s.calls[h].Seen?
  {
    [Write(h)] +
    match Afterwards(s.fee, s.hasPayment, s.calls[h].event, s.calls[h].out)
    case Delivering => [Deliver(h)] + []
    case Refunding => [Refund(h)] + []
    case _ => []
  }

  /** Handlers that have read the row may go on to their end. */
  ghost predicate AllowsFinishing(ok: (System, Step) -> bool) {
    forall s: System, step: Step :: step.Write? || step.Deliver? || step.Refund? ==> ok(s, step)
  }

  /** What one event leaves once its handler has ended, whatever the row said when it wrote. */
  function AfterEvent(s: System, h: nat, event: DeliveryStatus, out: bool): System {
    s.(status := event,
       sub := if event == DELIVERED && out then Orders.DELIVERED else s.sub,
       refunded := s.refunded || (IsFailure(event) && Due(s)),
       calls := s.calls[h := Ended])
  }

  lemma FinishingRuns(s: System, h: nat, ok: (System, Step) -> bool)
    requires h in s.calls && s.calls[h].Seen? && AllowsFinishing(ok)
    ensures IsRun(Next, s, Finishing(s, h), ok)
    ensures Run(Next, s, Finishing(s, h), ok) == AfterEvent(s, h, s.calls[h].event, s.calls[h].out)
  {
    var t := Next(s, Write(h));
    assert t.calls[h := Ended] == s.calls[h := Ended];
    if t.calls[h].Delivering? {
      assert Enabled(t, Deliver(h));
      StepThenRun(Next, t, Deliver(h), [], ok);
    } else if t.calls[h].Refunding? {
      assert Enabled(t, Refund(h));
      StepThenRun(Next, t, Refund(h), [], ok);
    }
    StepThenRun(Next, s, Write(h), Finishing(s, h)[1..], ok);
    assert Finishing(s, h) == [Write(h)] + Finishing(s, h)[1..];
  }

  /** The courier has the parcel and may report on it. */
  predicate OpenRow(s: System) {
    s.status != QUOTED && !IsTerminal(s.status)
  }

  /** Nobody but the courier and our own handlers moves. */
  predicate ByCourier(s: System, step: Step) {
    !step.CancelSub? && !step.DeliverByHand?
  }

  ghost predicate AllowsCourier(ok: (System, Step) -> bool) {
    forall s: System, step: Step :: ByCourier(s, step) ==> ok(s, step)
  }

  predicate SameFee(s: System, t: System) {
    t.fee == s.fee && t.hasPayment == s.hasPayment
  }

  predicate SameParcel(s: System, t: System) {
    SameFee(s, t) && t.sub == s.sub
  }

  /** Wherever this parcel's row is open, the goal can be reached. */
  ghost predicate OpenRowsReach(s: System, ok: (System, Step) -> bool, goal: System -> bool) {
    forall t :: OpenRow(t) && SameParcel(s, t) ==> CanReach(Next, t, ok, goal)
  }

  lemma HeldBookingReaches(s: System, h: nat, ok: (System, Step) -> bool, goal: System -> bool)
    requires h in s.calls && s.calls[h].Booking? && AllowsCourier(ok) && OpenRowsReach(s, ok, goal)
    ensures CanReach(Next, s, ok, goal)
  {
    assert OpenRow(Next(s, CommitBooking(h))) && SameParcel(s, Next(s, CommitBooking(h)));
    ReachNext(Next, s, CommitBooking(h), ok, goal);
  }

  /** A quote can be booked, whether or not a booking is under way. */
  lemma QuoteReaches(s: System, ok: (System, Step) -> bool, goal: System -> bool)
    requires BookingsHold(s) && s.status == QUOTED && AllowsCourier(ok) && OpenRowsReach(s, ok, goal)
    ensures CanReach(Next, s, ok, goal)
  {
    if s.holder.Some? {
      HeldBookingReaches(s, s.holder.value, ok, goal);
    } else {
      var h := FreshId(s.calls.Keys);
      var t := Next(s, CreateJob(h));
      assert OpenRowsReach(t, ok, goal);
      HeldBookingReaches(t, h, ok, goal);
      ReachNext(Next, s, CreateJob(h), ok, goal);
    }
  }

  /** A handler that writes progress leaves the row open, even over a terminal status. */
  lemma ProgressReaches(s: System, h: nat, ok: (System, Step) -> bool, goal: System -> bool)
    requires h in s.calls && s.calls[h].Seen? && s.calls[h].event != QUOTED && !IsTerminal(s.calls[h].event)
    requires AllowsCourier(ok) && OpenRowsReach(s, ok, goal)
    ensures CanReach(Next, s, ok, goal)
  {
    assert OpenRow(Next(s, Write(h))) && SameParcel(s, Next(s, Write(h)));
    ReachNext(Next, s, Write(h), ok, goal);
  }

  lemma HandlerReaches(s: System, h: nat, ok: (System, Step) -> bool, goal: System -> bool)
    requires h in s.calls && s.calls[h].Seen? && AllowsFinishing(ok)
    requires CanReach(Next, AfterEvent(s, h, s.calls[h].event, s.calls[h].out), ok, goal)
    ensures CanReach(Next, s, ok, goal)
  {
    FinishingRuns(s, h, ok);
    ReachAfter(Next, s, Finishing(s, h), ok, goal);
  }

  /** From an open row, an event can come in and be handled to its end. */
  lemma EventReaches(s: System, h: nat, event: DeliveryStatus, ok: (System, Step) -> bool, goal: System -> bool)
    requires OpenRow(s) && !Busy(s, h) && event != QUOTED && ok(s, Arrive(h, event)) && AllowsFinishing(ok)
    requires CanReach(Next, AfterEvent(s, h, event, s.sub == Orders.DISPATCHED), ok, goal)
    ensures CanReach(Next, s, ok, goal)
  {
    var t := Next(s, Arrive(h, event));
    assert t.calls[h := Ended] == s.calls[h := Ended];
    HandlerReaches(t, h, ok, goal);
    ReachNext(Next, s, Arrive(h, event), ok, goal);
  }

  // ---------------------------------------------------------------------------
  // The fee: when its refund can still come
  // ---------------------------------------------------------------------------

  /** A fee the buyer has paid. */
  predicate Due(s: System) {
    s.hasPayment && s.fee > 0
  }

  predicate Refunded(s: System) {
    s.refunded
  }

  ghost predicate CanRefund(s: System) {
    CanReach(Next, s, AnyStep, Refunded)
  }

  /** Handlers go for the refund only where there is a fee to refund. */
  ghost predicate RefundsAreDue(s: System) {
    forall h :: h in s.calls && s.calls[h].Refunding? ==> Due(s)
  }

  ghost predicate Reachable(s: System) {
    BookingsHold(s) && RefundsAreDue(s)
  }

  lemma WriteKeepsDue(s: System, h: nat)
    requires RefundsAreDue(s) && Enabled(s, Write(h))
    ensures RefundsAreDue(Next(s, Write(h)))
  {
    var t := Next(s, Write(h));
    forall g | g in t.calls && t.calls[g].Refunding? ensures Due(t) {
      assert g != h ==> g in s.calls && s.calls[g].Refunding?;
    }
  }

  lemma StepKeepsDue(s: System, step: Step)
    requires RefundsAreDue(s) && Enabled(s, step)
    ensures RefundsAreDue(Next(s, step))
  {
    if step.Write? {
      WriteKeepsDue(s, step.h);
    } else {
      var t := Next(s, step);
      forall g | g in t.calls && t.calls[g].Refunding? ensures Due(t) {
        assert g in s.calls && s.calls[g].Refunding?;
      }
    }
  }

  lemma {:induction false} RunReachable(s: System, steps: seq<Step>, ok: (System, Step) -> bool)
    requires Reachable(s) && IsRun(Next, s, steps, ok)
    ensures Reachable(Run(Next, s, steps, ok)) && SameFee(s, Run(Next, s, steps, ok))
    decreases |steps|
  {
    if steps != [] {
      BookingStep(s, steps[0]);
      StepKeepsDue(s, steps[0]);
      RunReachable(Next(s, steps[0]), steps[1..], ok);
    }
  }

  /** No handler refunds, writes a failure, or reopens the row by writing progress over it. */
  ghost predicate OnlyDeliveriesHeld(s: System) {
    forall h :: h in s.calls ==> !s.calls[h].Refunding? && (s.calls[h].Seen? ==> s.calls[h].event == DELIVERED)
  }

  /** Beyond refund: nothing due, or a terminal row that nobody can refund or reopen. */
  ghost predicate BeyondRefund(s: System) {
    !s.refunded && (Due(s) ==> IsTerminal(s.status) && OnlyDeliveriesHeld(s))
  }

  lemma BeyondRefundWrite(s: System, h: nat)
    requires Reachable(s) && BeyondRefund(s) && Enabled(s, Write(h))
    ensures BeyondRefund(Next(s, Write(h)))
  {
    var t := Next(s, Write(h));
    if Due(s) {
      forall g | g in t.calls ensures !t.calls[g].Refunding? && (t.calls[g].Seen? ==> t.calls[g].event == DELIVERED) {
        assert g in s.calls;
      }
    }
  }

  lemma BeyondRefundArrive(s: System, h: nat, event: DeliveryStatus)
    requires Reachable(s) && BeyondRefund(s) && Enabled(s, Arrive(h, event))
    ensures BeyondRefund(Next(s, Arrive(h, event)))
  {
    var t := Next(s, Arrive(h, event));
    if Due(s) {
      forall g | g in t.calls ensures !t.calls[g].Refunding? && (t.calls[g].Seen? ==> t.calls[g].event == DELIVERED) {
        assert g != h ==> g in s.calls;
      }
    }
  }

  lemma BeyondRefundStep(s: System, step: Step)
    requires Reachable(s) && BeyondRefund(s) && Enabled(s, step)
    ensures BeyondRefund(Next(s, step))
  {
    if step.Write? {
      BeyondRefundWrite(s, step.h);
    } else if step.Arrive? {
      BeyondRefundArrive(s, step.h, step.event);
    } else {
      assert !step.Refund? && !step.RefundError?;
      var t := Next(s, step);
      if Due(s) {
        forall g | g in t.calls ensures !t.calls[g].Refunding? && (t.calls[g].Seen? ==> t.calls[g].event == DELIVERED) {
          assert t.calls[g].Seen? || t.calls[g].Refunding? ==> g in s.calls && s.calls[g] == t.calls[g];
        }
      }
    }
  }

  lemma {:induction false} BeyondRefundRun(s: System, steps: seq<Step>)
    requires Reachable(s) && BeyondRefund(s) && IsRun(Next, s, steps, AnyStep)
    ensures !Run(Next, s, steps, AnyStep).refunded
    decreases |steps|
  {
    if steps != [] {
      BeyondRefundStep(s, steps[0]);
      BookingStep(s, steps[0]);
      StepKeepsDue(s, steps[0]);
      BeyondRefundRun(Next(s, steps[0]), steps[1..]);
    }
  }

  lemma OpenRowRefunds(s: System)
    requires Due(s)
    ensures OpenRowsReach(s, AnyStep, Refunded)
  {
    forall t | OpenRow(t) && SameParcel(s, t) ensures CanReach(Next, t, AnyStep, Refunded) {
      var h := FreshId(t.calls.Keys);
      ReachNow(Next, AfterEvent(t, h, FAILED, t.sub == Orders.DISPATCHED), AnyStep, Refunded);
      EventReaches(t, h, FAILED, AnyStep, Refunded);
    }
  }

  lemma NotBeyondRefunds(s: System)
    requires Reachable(s) && !BeyondRefund(s)
    ensures CanRefund(s)
  {
    if s.refunded {
      ReachNow(Next, s, AnyStep, Refunded);
    } else {
      OpenRowRefunds(s);
      if s.status == QUOTED {
        QuoteReaches(s, AnyStep, Refunded);
      } else if IsTerminal(s.status) {
        HandlerRefunds(s);
      }
    }
  }

  /** Over a terminal row: a refund or failure still held, or progress that reopens it. */
  lemma HandlerRefunds(s: System)
    requires Reachable(s) && Due(s) && !OnlyDeliveriesHeld(s) && OpenRowsReach(s, AnyStep, Refunded)
    ensures CanRefund(s)
  {
    var h :| h in s.calls && (s.calls[h].Refunding? || (s.calls[h].Seen? && s.calls[h].event != DELIVERED));
    if s.calls[h].Refunding? {
      ReachNow(Next, Next(s, Refund(h)), AnyStep, Refunded);
      ReachNext(Next, s, Refund(h), AnyStep, Refunded);
    } else if IsFailure(s.calls[h].event) {
      FinishingRuns(s, h, AnyStep);
    } else {
      ProgressReaches(s, h, AnyStep, Refunded);
    }
  }

  /**
   Wherever a delivery stands, its fee is never refunded in any continuation exactly when it has not been and,
   if a fee is due, the row is terminal and no handler still holds a refund, a failure, or progress that would
   reopen the row. So a handler that crashes, or is refused, after writing FAILED leaves the buyer unrefunded for ever.
   */
  lemma NeverRefundedIff(s: System)
    requires Reachable(s)
    ensures !CanRefund(s) <==>
            !s.refunded && (Due(s) ==> IsTerminal(s.status) && OnlyDeliveriesHeld(s))
  {
    if BeyondRefund(s) {
      forall steps | IsRun(Next, s, steps, AnyStep) ensures !Run(Next, s, steps, AnyStep).refunded {
        BeyondRefundRun(s, steps);
      }
    } else {
      NotBeyondRefunds(s);
    }
  }

  // ---------------------------------------------------------------------------
  // The parcel: when its delivery can still be recorded
  // ---------------------------------------------------------------------------

  predicate SubDelivered(s: System) {
    s.sub == Orders.DELIVERED
  }

  /** The sub-order can still become DELIVERED without a person's hand. */
  ghost predicate CanDeliver(s: System) {
    CanReach(Next, s, ByCourier, SubDelivered)
  }

  /** A handler about to deliver, whatever becomes of the sub-order meanwhile. */
  predicate WillDeliver(pc: Pc) {
    pc.Delivering? || (pc.Seen? && pc.event == DELIVERED && pc.out)
  }

  /** A handler about to write progress. */
  predicate WillReopen(pc: Pc) {
    pc.Seen? && !IsTerminal(pc.event)
  }

  ghost predicate NobodyDelivers(s: System) {
    forall h :: h in s.calls ==> !WillDeliver(s.calls[h])
  }

  ghost predicate NobodyReopens(s: System) {
    forall h :: h in s.calls ==> !WillReopen(s.calls[h])
  }

  /** Beyond delivery: nobody is about to deliver, and a sub-order still out is on a terminal row nobody reopens. */
  ghost predicate BeyondDelivery(s: System) {
    && s.sub != Orders.DELIVERED && NobodyDelivers(s)
    && (s.sub == Orders.DISPATCHED ==> IsTerminal(s.status) && NobodyReopens(s))
  }

  lemma BeyondDeliveryStep(s: System, step: Step)
    requires BookingsHold(s) && BeyondDelivery(s) && Enabled(s, step) && ByCourier(s, step)
    ensures BeyondDelivery(Next(s, step))
  {
    var t := Next(s, step);
    assert step.h in s.calls ==> !WillDeliver(s.calls[step.h]);
    forall g | g in t.calls ensures !WillDeliver(t.calls[g]) {
      assert g != step.h ==> g in s.calls;
    }
    if s.sub == Orders.DISPATCHED {
      assert step.h in s.calls ==> !WillReopen(s.calls[step.h]);
      forall g | g in t.calls ensures !WillReopen(t.calls[g]) {
        assert g != step.h ==> g in s.calls;
      }
    }
  }

  lemma {:induction false} BeyondDeliveryRun(s: System, steps: seq<Step>)
    requires BookingsHold(s) && BeyondDelivery(s) && IsRun(Next, s, steps, ByCourier)
    ensures !SubDelivered(Run(Next, s, steps, ByCourier))
    decreases |steps|
  {
    if steps != [] {
      BeyondDeliveryStep(s, steps[0]);
      BookingStep(s, steps[0]);
      BeyondDeliveryRun(Next(s, steps[0]), steps[1..]);
    }
  }

  lemma OpenRowDelivers(s: System)
    requires s.sub == Orders.DISPATCHED
    ensures OpenRowsReach(s, ByCourier, SubDelivered)
  {
    forall t | OpenRow(t) && SameParcel(s, t) ensures CanReach(Next, t, ByCourier, SubDelivered) {
      var h := FreshId(t.calls.Keys);
      ReachNow(Next, AfterEvent(t, h, DELIVERED, true), ByCourier, SubDelivered);
      EventReaches(t, h, DELIVERED, ByCourier, SubDelivered);
    }
  }

  lemma HandlerDelivers(s: System, h: nat)
    requires h in s.calls && WillDeliver(s.calls[h])
    ensures CanDeliver(s)
  {
    if s.calls[h].Delivering? {
      ReachNow(Next, Next(s, Deliver(h)), ByCourier, SubDelivered);
      ReachNext(Next, s, Deliver(h), ByCourier, SubDelivered);
    } else {
      ReachNow(Next, AfterEvent(s, h, DELIVERED, true), ByCourier, SubDelivered);
      HandlerReaches(s, h, ByCourier, SubDelivered);
    }
  }

  lemma NotBeyondDelivers(s: System)
    requires BookingsHold(s) && !BeyondDelivery(s)
    ensures CanDeliver(s)
  {
    if s.sub == Orders.DELIVERED {
      ReachNow(Next, s, ByCourier, SubDelivered);
    } else if !NobodyDelivers(s) {
      var h :| h in s.calls && WillDeliver(s.calls[h]);
      HandlerDelivers(s, h);
    } else {
      OpenRowDelivers(s);
      if s.status == QUOTED {
        QuoteReaches(s, ByCourier, SubDelivered);
      } else if IsTerminal(s.status) {
        var h :| h in s.calls && WillReopen(s.calls[h]);
        ProgressReaches(s, h, ByCourier, SubDelivered);
      }
    }
  }

  /**
   Wherever a delivery stands, its sub-order is not marked delivered in any continuation without a person's step
   exactly when it is not delivered, no handler is about to deliver it and, if it is still out, its row is terminal
   and no handler holds progress that would reopen the row. So a handler that stops after writing DELIVERED leaves the
   sub-order DISPATCHED, and its supplier without a payout, until a person steps in: repeats change nothing.
   */
  lemma NeverDeliveredIff(s: System)
    requires Reachable(s)
    ensures !CanDeliver(s) <==>
            && s.sub != Orders.DELIVERED && NobodyDelivers(s)
            && (s.sub == Orders.DISPATCHED ==> IsTerminal(s.status) && NobodyReopens(s))
  {
    if BeyondDelivery(s) {
      forall steps | IsRun(Next, s, steps, ByCourier) ensures !SubDelivered(Run(Next, s, steps, ByCourier)) {
        BeyondDeliveryRun(s, steps);
      }
    } else {
      NotBeyondDelivers(s);
    }
  }

  /** Both, at the end of every run from the quote on. */
  lemma LostAfterAnyRunIff(fee: nat, hasPayment: bool, steps: seq<Step>)
    requires IsRun(Next, Quoted(fee, hasPayment), steps, AnyStep)
    ensures var t := Run(Next, Quoted(fee, hasPayment), steps, AnyStep);
            && (!CanRefund(t) <==>
                !t.refunded && (hasPayment && fee > 0 ==> IsTerminal(t.status) && OnlyDeliveriesHeld(t)))
            && (!CanDeliver(t) <==>
                && t.sub != Orders.DELIVERED && NobodyDelivers(t)
                && (t.sub == Orders.DISPATCHED ==> IsTerminal(t.status) && NobodyReopens(t)))
  {
    RunReachable(Quoted(fee, hasPayment), steps, AnyStep);
    var t := Run(Next, Quoted(fee, hasPayment), steps, AnyStep);
    NeverRefundedIff(t);
    NeverDeliveredIff(t);
  }
}
