/**
 When the sub-order and the fee come to agree with the courier's row, exactly: from any state between courier calls,
 and for every liberty that people, failures and overlapping webhooks may take.
 */
module DeliveryLiberties {
  import opened Results
  import opened Runs
  import opened FreshIds
  import opened Delivery
  import opened DeliveryProofs
  import Orders = StoreState

  predicate Quiet(s: System) {
    forall h :: h in s.calls ==> !Busy(s, h)
  }

  /** The sub-order counts as delivered exactly when the courier delivered it. */
  predicate SubAgrees(s: System) {
    s.sub == Orders.DELIVERED <==> s.status == DELIVERED
  }

  predicate FeeDue(s: System) {
    IsFailure(s.status) && Due(s)
  }

  /** The fee is refunded exactly for a failed delivery. */
  predicate FeeAgrees(s: System) {
    s.refunded <==> FeeDue(s)
  }

  /** Nobody is at work, and the two still differ. */
  predicate SubAstray(s: System) {
    Quiet(s) && !SubAgrees(s)
  }

  predicate FeeAstray(s: System) {
    Quiet(s) && !FeeAgrees(s)
  }

  predicate Holds(s: System, h: nat) {
    h in s.calls && s.calls[h].Seen?
  }

  predicate Delivers(s: System, h: nat) {
    h in s.calls && s.calls[h].Delivering?
  }

  predicate Refunds(s: System, h: nat) {
    h in s.calls && s.calls[h].Refunding?
  }

  /** Some handler has read the row and written nothing yet. */
  predicate Reading(s: System) {
    exists h :: h in s.calls && s.calls[h].Seen?
  }

  // ---------------------------------------------------------------------------
  // The liberties
  // ---------------------------------------------------------------------------

  /**
   `cancels` and `handDeliveries`: people's own steps on the sub-order. `overlaps`: a webhook is read between another's
   read and write. `dropsDelivery`: a handler stops between writing DELIVERED and delivering. `dropsRefund`: a handler
   stops, or is refused, between writing a failure and refunding.
   */
  datatype Liberties = Liberties(
    cancels: bool, handDeliveries: bool, overlaps: bool, dropsDelivery: bool, dropsRefund: bool)

  predicate Allowed(lib: Liberties, s: System, step: Step) {
    match step
    case CancelSub => lib.cancels
    case DeliverByHand => lib.handDeliveries
    case Arrive(_, _) => lib.overlaps || !Reading(s)
    case Crash(h) => (lib.dropsDelivery || !Delivers(s, h)) && (lib.dropsRefund || !Refunds(s, h))
    case RefundError(_, executed) => lib.dropsRefund || executed
    case _ => true
  }

  function With(lib: Liberties): (System, Step) -> bool {
    (s, step) => Allowed(lib, s, step)
  }

  /** None of the liberties that can set the sub-order apart from the courier's row. */
  predicate SubLeftAlone(lib: Liberties) {
    !lib.cancels && !lib.handDeliveries && !lib.overlaps && !lib.dropsDelivery
  }

  /** None of those that can set the fee apart. */
  predicate FeeLeftAlone(lib: Liberties) {
    !lib.overlaps && !lib.dropsRefund
  }

  // ---------------------------------------------------------------------------
  // Left alone, they come to agree
  // ---------------------------------------------------------------------------

  /** One event is handled at a time, from a row that is not terminal. */
  ghost predicate OneReader(s: System) {
    && (forall g, h :: Holds(s, g) && Holds(s, h) ==> g == h)
    && (forall h :: Holds(s, h) ==> !IsTerminal(s.status))
  }

  lemma OneReaderStep(s: System, lib: Liberties, step: Step)
    requires OneReader(s) && BookingsHold(s) && Enabled(s, step) && Allowed(lib, s, step) && !lib.overlaps
    ensures OneReader(Next(s, step))
  {
    var t := Next(s, step);
    forall h | Holds(t, h) ensures Holds(s, h) || (step.Arrive? && h == step.h && !Reading(s)) {
    }
    if step.Write? {
      assert Holds(s, step.h);
    }
  }

  /** Delivered by the courier and so recorded, failed and not delivered, or still out as DISPATCHED. */
  predicate InStep(s: System) {
    if IsTerminal(s.status) then SubAgrees(s) else s.sub == Orders.DISPATCHED
  }

  /** In step, but for the one handler that has written DELIVERED and is about to deliver. */
  ghost predicate KeepingStep(s: System) {
    && BookingsHold(s) && OneReader(s)
    && (forall h :: Holds(s, h) ==> s.calls[h].out)
    && (forall g, h :: Delivers(s, g) && Delivers(s, h) ==> g == h)
    && (forall h :: Delivers(s, h) ==> s.status == DELIVERED && s.sub == Orders.DISPATCHED)
    && ((forall h :: !Delivers(s, h)) ==> InStep(s))
  }

  /** A written event either leaves the row in step or sends its handler on to deliver. */
  lemma KeepingStepWrite(s: System, h: nat)
    requires KeepingStep(s) && Enabled(s, Write(h)) && OneReader(Next(s, Write(h))) && BookingsHold(Next(s, Write(h)))
    ensures KeepingStep(Next(s, Write(h)))
  {
    var t := Next(s, Write(h));
    assert Holds(s, h);
    forall g ensures !Delivers(s, g) {
    }
    forall g | Delivers(t, g) ensures g == h {
      assert g != h ==> Delivers(s, g);
    }
    assert t.calls[h].Delivering? ==> Delivers(t, h);
  }

  lemma KeepingStepNext(s: System, lib: Liberties, step: Step)
    requires KeepingStep(s) && Enabled(s, step) && Allowed(lib, s, step) && SubLeftAlone(lib)
    ensures KeepingStep(Next(s, step))
  {
    BookingStep(s, step);
    OneReaderStep(s, lib, step);
    if step.Write? {
      KeepingStepWrite(s, step.h);
    } else {
      var t := Next(s, step);
      forall g ensures Delivers(t, g) <==> Delivers(s, g) && !(step.Deliver? && g == step.h) {
      }
      assert step.Deliver? ==> Delivers(s, step.h);
    }
  }

  lemma {:induction false} KeepingStepRun(s: System, lib: Liberties, steps: seq<Step>)
    requires KeepingStep(s) && IsRun(Next, s, steps, With(lib)) && SubLeftAlone(lib)
    ensures KeepingStep(Run(Next, s, steps, With(lib)))
    decreases |steps|
  {
    if steps != [] {
      KeepingStepNext(s, lib, steps[0]);
      KeepingStepRun(Next(s, steps[0]), lib, steps[1..]);
    }
  }

  /** What is still owed is what the one refunding handler is about to refund. */
  ghost predicate Settling(s: System) {
    && BookingsHold(s) && OneReader(s)
    && (forall g, h :: Refunds(s, g) && Refunds(s, h) ==> g == h)
    && (forall h :: Refunds(s, h) ==> FeeDue(s) && !s.refunded)
    && (s.refunded ==> FeeDue(s))
    && ((forall h :: !Refunds(s, h)) ==> FeeAgrees(s))
  }

  lemma SettlingWrite(s: System, h: nat)
    requires Settling(s) && Enabled(s, Write(h)) && OneReader(Next(s, Write(h))) && BookingsHold(Next(s, Write(h)))
    ensures Settling(Next(s, Write(h)))
  {
    var t := Next(s, Write(h));
    assert Holds(s, h);
    forall g ensures !Refunds(s, g) {
    }
    forall g | Refunds(t, g) ensures g == h {
      assert g != h ==> Refunds(s, g);
    }
    assert t.calls[h].Refunding? ==> Refunds(t, h);
  }

  lemma SettlingNext(s: System, lib: Liberties, step: Step)
    requires Settling(s) && Enabled(s, step) && Allowed(lib, s, step) && FeeLeftAlone(lib)
    ensures Settling(Next(s, step))
  {
    BookingStep(s, step);
    OneReaderStep(s, lib, step);
    if step.Write? {
      SettlingWrite(s, step.h);
    } else {
      var t := Next(s, step);
      forall g ensures Refunds(t, g) <==> Refunds(s, g) && !((step.Refund? || step.RefundError?) && g == step.h) {
      }
      assert step.Refund? || step.RefundError? ==> Refunds(s, step.h);
    }
  }

  lemma {:induction false} SettlingRun(s: System, lib: Liberties, steps: seq<Step>)
    requires Settling(s) && IsRun(Next, s, steps, With(lib)) && FeeLeftAlone(lib)
    ensures Settling(Run(Next, s, steps, With(lib)))
    decreases |steps|
  {
    if steps != [] {
      SettlingNext(s, lib, steps[0]);
      SettlingRun(Next(s, steps[0]), lib, steps[1..]);
    }
  }

  /** Without a fee there is nothing to get wrong. */
  lemma {:induction false} NothingDueRun(s: System, ok: (System, Step) -> bool, steps: seq<Step>)
    requires !Due(s) && !s.refunded && RefundsAreDue(s) && IsRun(Next, s, steps, ok)
    ensures FeeAgrees(Run(Next, s, steps, ok))
    decreases |steps|
  {
    if steps != [] {
      assert Enabled(s, steps[0]);
      assert !steps[0].Refund? && !steps[0].RefundError?;
      StepKeepsDue(s, steps[0]);
      NothingDueRun(Next(s, steps[0]), ok, steps[1..]);
    }
  }

  /** With a terminal row and nobody at work, only people still change anything: the sub-order. */
  lemma OverStep(s: System, step: Step)
    requires Quiet(s) && IsTerminal(s.status) && Enabled(s, step)
    ensures var t := Next(s, step);
            && Quiet(t) && t.status == s.status && t.refunded == s.refunded && SameFee(s, t)
            && (t.sub == s.sub || step.CancelSub? || step.DeliverByHand?)
  {
    var t := Next(s, step);
    forall h | h in t.calls ensures !Busy(t, h) {
      assert h in s.calls ==> !Busy(s, h);
    }
    if !step.CancelSub? && !step.DeliverByHand? {
      assert step.h in s.calls ==> !Busy(s, step.h);
    }
  }

  lemma {:induction false} FeeOver(s: System, ok: (System, Step) -> bool, steps: seq<Step>)
    requires Quiet(s) && IsTerminal(s.status) && FeeAgrees(s) && IsRun(Next, s, steps, ok)
    ensures FeeAgrees(Run(Next, s, steps, ok))
    decreases |steps|
  {
    if steps != [] {
      OverStep(s, steps[0]);
      FeeOver(Next(s, steps[0]), ok, steps[1..]);
    }
  }

  lemma {:induction false} SubOver(s: System, lib: Liberties, steps: seq<Step>)
    requires Quiet(s) && IsTerminal(s.status) && SubAgrees(s) && (lib.handDeliveries ==> s.sub != Orders.DISPATCHED)
    requires IsRun(Next, s, steps, With(lib))
    ensures SubAgrees(Run(Next, s, steps, With(lib)))
    decreases |steps|
  {
    if steps != [] {
      OverStep(s, steps[0]);
      SubOver(Next(s, steps[0]), lib, steps[1..]);
    }
  }

  // ---------------------------------------------------------------------------
  // Each liberty leads astray
  // ---------------------------------------------------------------------------

  /** A parcel with the courier, nobody at work on it. */
  predicate OnItsWay(s: System) {
    Quiet(s) && OpenRow(s)
  }

  lemma QuoteBooked(s: System, h: nat)
    requires Quiet(s) && Reachable(s) && s.status == QUOTED && h !in s.calls
    ensures Enabled(s, CreateJob(h)) && Enabled(Next(s, CreateJob(h)), CommitBooking(h))
    ensures var t := Next(Next(s, CreateJob(h)), CommitBooking(h));
            OnItsWay(t) && Reachable(t) && SameParcel(s, t) && t.refunded == s.refunded
  {
    assert s.holder.Some? ==> Busy(s, s.holder.value);
    var u := Next(s, CreateJob(h));
    BookingStep(s, CreateJob(h));
    BookingStep(u, CommitBooking(h));
    StepKeepsDue(s, CreateJob(h));
    StepKeepsDue(u, CommitBooking(h));
    var t := Next(u, CommitBooking(h));
    forall g | g in t.calls ensures !Busy(t, g) {
      assert g == h || (g in s.calls && !Busy(s, g));
    }
  }

  /** A quiet delivery whose row is not terminal is, or can be, on its way. */
  lemma Booked(s: System, lib: Liberties, goal: System -> bool) returns (t: System)
    requires Quiet(s) && Reachable(s) && !IsTerminal(s.status)
    ensures OnItsWay(t) && Reachable(t) && SameParcel(s, t) && t.refunded == s.refunded
    ensures CanReach(Next, t, With(lib), goal) ==> CanReach(Next, s, With(lib), goal)
  {
    if s.status != QUOTED {
      t := s;
    } else {
      var h := FreshId(s.calls.Keys);
      QuoteBooked(s, h);
      var u := Next(s, CreateJob(h));
      t := Next(u, CommitBooking(h));
      if CanReach(Next, t, With(lib), goal) {
        ReachNext(Next, u, CommitBooking(h), With(lib), goal);
        ReachNext(Next, s, CreateJob(h), With(lib), goal);
      }
    }
  }

  predicate Out(s: System) {
    s.sub == Orders.DISPATCHED
  }

  lemma EventKeepsQuiet(s: System, h: nat, event: DeliveryStatus, out: bool)
    requires Quiet(s)
    ensures Quiet(AfterEvent(s, h, event, out)) && !Reading(s)
  {
    var t := AfterEvent(s, h, event, out);
    forall g | g in t.calls ensures !Busy(t, g) {
      assert g != h ==> g in s.calls && !Busy(s, g);
    }
    forall g | g in s.calls ensures !s.calls[g].Seen? {
      assert !Busy(s, g);
    }
  }

  lemma OneEventReaches(s: System, event: DeliveryStatus, lib: Liberties, goal: System -> bool)
    requires OnItsWay(s) && event != QUOTED
    requires forall h :: goal(AfterEvent(s, h, event, Out(s)))
    ensures CanReach(Next, s, With(lib), goal)
  {
    var h := FreshId(s.calls.Keys);
    EventKeepsQuiet(s, h, event, Out(s));
    ReachNow(Next, AfterEvent(s, h, event, Out(s)), With(lib), goal);
    EventReaches(s, h, event, With(lib), goal);
  }

  lemma TwoEventsEnd(s: System, g: nat, first: DeliveryStatus, h: nat, second: DeliveryStatus)
    requires OnItsWay(s) && g !in s.calls && h !in s.calls && g != h && first != QUOTED && second != QUOTED
    ensures Enabled(s, Arrive(g, first)) && Enabled(Next(s, Arrive(g, first)), Arrive(h, second))
    ensures var t := Next(Next(s, Arrive(g, first)), Arrive(h, second));
            AfterEvent(AfterEvent(t, g, first, Out(s)), h, second, Out(s)) ==
            AfterEvent(AfterEvent(s, g, first, Out(s)), h, second, Out(s))
  {
    var t := Next(Next(s, Arrive(g, first)), Arrive(h, second));
    assert t.calls[g := Ended][h := Ended] == s.calls[g := Ended][h := Ended];
  }

  /** Two events read side by side: both are handled to their end. */
  lemma TwoEventsReach(s: System, g: nat, first: DeliveryStatus, h: nat, second: DeliveryStatus,
                       lib: Liberties, goal: System -> bool)
    requires OnItsWay(s) && lib.overlaps && first != QUOTED && second != QUOTED
    requires g !in s.calls && h !in s.calls && g != h
    requires goal(AfterEvent(AfterEvent(s, g, first, Out(s)), h, second, Out(s)))
    ensures CanReach(Next, s, With(lib), goal)
  {
    TwoEventsEnd(s, g, first, h, second);
    var s1 := Next(s, Arrive(g, first));
    var s2 := Next(s1, Arrive(h, second));
    ReachNow(Next, AfterEvent(AfterEvent(s2, g, first, Out(s)), h, second, Out(s)), With(lib), goal);
    HandlerReaches(AfterEvent(s2, g, first, Out(s)), h, With(lib), goal);
    HandlerReaches(s2, g, With(lib), goal);
    ReachNext(Next, s1, Arrive(h, second), With(lib), goal);
    ReachNext(Next, s, Arrive(g, first), With(lib), goal);
  }

  /** The row as a handler leaves it that stops once it has written its event. */
  function Dropped(s: System, h: nat, event: DeliveryStatus): System {
    s.(status := event, calls := s.calls[h := Ended])
  }

  /** With nobody at work, and the quote left behind, nothing can be out of order. */
  lemma QuietIsReachable(s: System)
    requires Quiet(s) && s.status != QUOTED && s.holder.None?
    ensures Reachable(s)
  {
    forall h | h in s.calls ensures s.calls[h].Ended? {
      assert !Busy(s, h);
    }
  }

  lemma DroppedIs(s: System, h: nat, event: DeliveryStatus) returns (s1: System, s2: System)
    requires OnItsWay(s) && Reachable(s) && h !in s.calls
    requires (event == DELIVERED && Out(s)) || (IsFailure(event) && Due(s))
    ensures Enabled(s, Arrive(h, event)) && s1 == Next(s, Arrive(h, event)) && !Reading(s)
    ensures Enabled(s1, Write(h)) && s2 == Next(s1, Write(h))
    ensures Enabled(s2, Crash(h)) && Next(s2, Crash(h)) == Dropped(s, h, event)
    ensures if event == DELIVERED then s2.calls[h] == Delivering else s2.calls[h] == Refunding
    ensures Reachable(Dropped(s, h, event)) && Quiet(Dropped(s, h, event))
  {
    EventKeepsQuiet(s, h, event, Out(s));
    s1 := Next(s, Arrive(h, event));
    s2 := Next(s1, Write(h));
    assert s2.calls[h := Ended] == s.calls[h := Ended];
    assert Dropped(s, h, event).calls == AfterEvent(s, h, event, Out(s)).calls;
    assert forall g :: Busy(Dropped(s, h, event), g) <==> Busy(AfterEvent(s, h, event, Out(s)), g);
    QuietIsReachable(Dropped(s, h, event));
  }

  lemma DroppedReaches(s: System, h: nat, event: DeliveryStatus, lib: Liberties, goal: System -> bool)
    requires OnItsWay(s) && Reachable(s) && h !in s.calls && IsTerminal(event)
    requires if event == DELIVERED then lib.dropsDelivery && Out(s) else lib.dropsRefund && Due(s)
    ensures Reachable(Dropped(s, h, event)) && Quiet(Dropped(s, h, event))
    ensures goal(Dropped(s, h, event)) ==> CanReach(Next, s, With(lib), goal)
  {
    var s1, s2 := DroppedIs(s, h, event);
    if goal(Dropped(s, h, event)) {
      ReachNow(Next, Dropped(s, h, event), With(lib), goal);
      ReachNext(Next, s2, Crash(h), With(lib), goal);
      ReachNext(Next, s1, Write(h), With(lib), goal);
      ReachNext(Next, s, Arrive(h, event), With(lib), goal);
    }
  }

  /** The buyer has the parcel, and the sub-order is CANCELLED. */
  predicate CancelledThoughDelivered(s: System) {
    Quiet(s) && s.status == DELIVERED && s.sub == Orders.CANCELLED
  }

  /** The sub-order counts as delivered, and the delivery as failed, its fee refunded. */
  predicate DeliveredThoughFailed(s: System) {
    Quiet(s) && s.status == FAILED && s.sub == Orders.DELIVERED && (Due(s) ==> s.refunded)
  }

  predicate RefundedThoughDelivered(s: System) {
    Quiet(s) && s.status == DELIVERED && s.refunded
  }

  /** Delivered, not so marked, and never to be without a person's step. */
  ghost predicate ParcelLost(s: System) {
    Quiet(s) && s.status == DELIVERED && s.sub == Orders.DISPATCHED && !CanDeliver(s)
  }

  /** Failed, not refunded, and never to be. */
  ghost predicate FeeLost(s: System) {
    Quiet(s) && s.status == FAILED && Due(s) && !s.refunded && !CanRefund(s)
  }

  lemma CancellationAstray(s: System, lib: Liberties)
    requires OnItsWay(s) && s.sub == Orders.DISPATCHED && lib.cancels
    ensures CanReach(Next, s, With(lib), CancelledThoughDelivered)
  {
    var t := Next(s, CancelSub);
    forall h ensures CancelledThoughDelivered(AfterEvent(t, h, DELIVERED, Out(t))) {
      EventKeepsQuiet(t, h, DELIVERED, Out(t));
    }
    OneEventReaches(t, DELIVERED, lib, CancelledThoughDelivered);
    ReachNext(Next, s, CancelSub, With(lib), CancelledThoughDelivered);
  }

  lemma HandDeliveryAstray(s: System, lib: Liberties)
    requires OnItsWay(s) && s.sub == Orders.DISPATCHED && lib.handDeliveries
    ensures CanReach(Next, s, With(lib), DeliveredThoughFailed)
  {
    var t := Next(s, DeliverByHand);
    forall h ensures DeliveredThoughFailed(AfterEvent(t, h, FAILED, Out(t))) {
      EventKeepsQuiet(t, h, FAILED, Out(t));
    }
    OneEventReaches(t, FAILED, lib, DeliveredThoughFailed);
    ReachNext(Next, s, DeliverByHand, With(lib), DeliveredThoughFailed);
  }

  lemma OverlapAstray(s: System, lib: Liberties)
    requires OnItsWay(s) && lib.overlaps
    ensures s.sub == Orders.DISPATCHED ==> CanReach(Next, s, With(lib), DeliveredThoughFailed)
    ensures Due(s) ==> CanReach(Next, s, With(lib), RefundedThoughDelivered)
  {
    var g := FreshId(s.calls.Keys);
    var h := FreshId(s.calls.Keys + {g});
    assert g !in s.calls && h !in s.calls;
    EventKeepsQuiet(s, g, DELIVERED, Out(s));
    EventKeepsQuiet(AfterEvent(s, g, DELIVERED, Out(s)), h, FAILED, Out(s));
    EventKeepsQuiet(s, g, FAILED, Out(s));
    EventKeepsQuiet(AfterEvent(s, g, FAILED, Out(s)), h, DELIVERED, Out(s));
    if s.sub == Orders.DISPATCHED {
      TwoEventsReach(s, g, DELIVERED, h, FAILED, lib, DeliveredThoughFailed);
    }
    if Due(s) {
      TwoEventsReach(s, g, FAILED, h, DELIVERED, lib, RefundedThoughDelivered);
    }
  }

  lemma DroppedDeliveryAstray(s: System, lib: Liberties)
    requires OnItsWay(s) && Reachable(s) && s.sub == Orders.DISPATCHED && lib.dropsDelivery
    ensures CanReach(Next, s, With(lib), ParcelLost)
  {
    var h := FreshId(s.calls.Keys);
    DroppedReaches(s, h, DELIVERED, lib, ParcelLost);
    var t := Dropped(s, h, DELIVERED);
    QuietHoldsNothing(t);
    NeverDeliveredIff(t);
  }

  lemma DroppedRefundAstray(s: System, lib: Liberties)
    requires OnItsWay(s) && Reachable(s) && Due(s) && !s.refunded && lib.dropsRefund
    ensures CanReach(Next, s, With(lib), FeeLost)
  {
    var h := FreshId(s.calls.Keys);
    DroppedReaches(s, h, FAILED, lib, FeeLost);
    var t := Dropped(s, h, FAILED);
    QuietHoldsNothing(t);
    NeverRefundedIff(t);
  }

  lemma QuietHoldsNothing(s: System)
    requires Quiet(s)
    ensures OnlyDeliveriesHeld(s) && NobodyDelivers(s) && NobodyReopens(s)
    ensures forall h :: !Holds(s, h) && !Delivers(s, h) && !Refunds(s, h)
  {
    forall h | h in s.calls ensures s.calls[h].Ended? {
      assert !Busy(s, h);
    }
  }

  /** From dispatch on: what each liberty can end in. */
  lemma LibertyLeadsAstray(lib: Liberties, fee: nat, hasPayment: bool)
    ensures var (s, due) := (Quoted(fee, hasPayment), hasPayment && fee > 0);
            && (lib.cancels ==> CanReach(Next, s, With(lib), CancelledThoughDelivered))
            && (lib.handDeliveries ==> CanReach(Next, s, With(lib), DeliveredThoughFailed))
            && (lib.overlaps ==> CanReach(Next, s, With(lib), DeliveredThoughFailed))
            && (lib.overlaps && due ==> CanReach(Next, s, With(lib), RefundedThoughDelivered))
            && (lib.dropsDelivery ==> CanReach(Next, s, With(lib), ParcelLost))
            && (lib.dropsRefund && due ==> CanReach(Next, s, With(lib), FeeLost))
  {
    var s := Quoted(fee, hasPayment);
    if lib.cancels {
      var t := Booked(s, lib, CancelledThoughDelivered);
      CancellationAstray(t, lib);
    }
    if lib.handDeliveries {
      var t := Booked(s, lib, DeliveredThoughFailed);
      HandDeliveryAstray(t, lib);
    }
    if lib.overlaps {
      var t := Booked(s, lib, DeliveredThoughFailed);
      OverlapAstray(t, lib);
      var u := Booked(s, lib, RefundedThoughDelivered);
      OverlapAstray(u, lib);
    }
    if lib.dropsDelivery {
      var t := Booked(s, lib, ParcelLost);
      DroppedDeliveryAstray(t, lib);
    }
    if lib.dropsRefund && Due(s) {
      var t := Booked(s, lib, FeeLost);
      DroppedRefundAstray(t, lib);
    }
  }

  // ---------------------------------------------------------------------------
  // Exactly when they come to agree
  // ---------------------------------------------------------------------------

  ghost predicate SubAlwaysAgrees(s: System, lib: Liberties) {
    !CanReach(Next, s, With(lib), SubAstray)
  }

  ghost predicate FeeAlwaysAgrees(s: System, lib: Liberties) {
    !CanReach(Next, s, With(lib), FeeAstray)
  }

  lemma Weaken(s: System, lib: Liberties, bad: System -> bool, worse: System -> bool)
    requires CanReach(Next, s, With(lib), worse) && forall t :: worse(t) ==> bad(t)
    ensures CanReach(Next, s, With(lib), bad)
  {
    var steps :| IsRun(Next, s, steps, With(lib)) && worse(Run(Next, s, steps, With(lib)));
    assert bad(Run(Next, s, steps, With(lib)));
  }

  lemma SubAstrayFrom(s: System, lib: Liberties)
    requires Quiet(s) && Reachable(s) && !IsTerminal(s.status) && s.sub == Orders.DISPATCHED && !SubLeftAlone(lib)
    ensures !SubAlwaysAgrees(s, lib)
  {
    var t := Booked(s, lib, SubAstray);
    if lib.cancels {
      CancellationAstray(t, lib);
      Weaken(t, lib, SubAstray, CancelledThoughDelivered);
    } else if lib.dropsDelivery {
      DroppedDeliveryAstray(t, lib);
      Weaken(t, lib, SubAstray, ParcelLost);
    } else {
      if lib.handDeliveries {
        HandDeliveryAstray(t, lib);
      } else {
        OverlapAstray(t, lib);
      }
      Weaken(t, lib, SubAstray, DeliveredThoughFailed);
    }
  }

  /** A parcel whose sub-order is no longer out is delivered all the same. */
  lemma OutOfStepAstray(s: System, lib: Liberties)
    requires Quiet(s) && Reachable(s) && !IsTerminal(s.status) && s.sub != Orders.DISPATCHED
    ensures !SubAlwaysAgrees(s, lib)
  {
    if s.sub == Orders.DELIVERED {
      ReachNow(Next, s, With(lib), SubAstray);
    } else {
      var t := Booked(s, lib, SubAstray);
      forall h ensures SubAstray(AfterEvent(t, h, DELIVERED, Out(t))) {
        EventKeepsQuiet(t, h, DELIVERED, Out(t));
      }
      OneEventReaches(t, DELIVERED, lib, SubAstray);
    }
  }

  lemma SubOverIff(s: System, lib: Liberties)
    requires Quiet(s) && IsTerminal(s.status)
    ensures SubAlwaysAgrees(s, lib) <==> SubAgrees(s) && (lib.handDeliveries ==> s.sub != Orders.DISPATCHED)
  {
    if !SubAgrees(s) {
      ReachNow(Next, s, With(lib), SubAstray);
    } else if lib.handDeliveries && s.sub == Orders.DISPATCHED {
      OverStep(s, DeliverByHand);
      ReachNow(Next, Next(s, DeliverByHand), With(lib), SubAstray);
      ReachNext(Next, s, DeliverByHand, With(lib), SubAstray);
    } else {
      forall steps | IsRun(Next, s, steps, With(lib)) ensures SubAgrees(Run(Next, s, steps, With(lib))) {
        SubOver(s, lib, steps);
      }
    }
  }

  /**
   Between courier calls: sub-order and courier agree at every later quiet moment exactly when they are in step now
   and, while the row is open, nobody takes any of four liberties, or, once it has failed, nobody delivers by hand a
   sub-order that is still out.
   */
  lemma SubAlwaysAgreesIff(s: System, lib: Liberties)
    requires Quiet(s) && Reachable(s)
    ensures SubAlwaysAgrees(s, lib) <==>
            && InStep(s)
            && if IsTerminal(s.status) then lib.handDeliveries ==> s.sub != Orders.DISPATCHED else SubLeftAlone(lib)
  {
    if IsTerminal(s.status) {
      SubOverIff(s, lib);
    } else if s.sub != Orders.DISPATCHED {
      OutOfStepAstray(s, lib);
    } else if !SubLeftAlone(lib) {
      SubAstrayFrom(s, lib);
    } else {
      QuietHoldsNothing(s);
      forall steps | IsRun(Next, s, steps, With(lib)) ensures !SubAstray(Run(Next, s, steps, With(lib))) {
        KeepingStepRun(s, lib, steps);
        var t := Run(Next, s, steps, With(lib));
        if Quiet(t) {
          QuietHoldsNothing(t);
        }
      }
    }
  }

  /** The fee likewise: it agrees now and, if one is due on an open row, neither liberty that can lose it is taken. */
  lemma FeeAlwaysAgreesIff(s: System, lib: Liberties)
    requires Quiet(s) && Reachable(s)
    ensures FeeAlwaysAgrees(s, lib) <==>
            FeeAgrees(s) && (Due(s) && !IsTerminal(s.status) ==> FeeLeftAlone(lib))
  {
    if !FeeAgrees(s) {
      ReachNow(Next, s, With(lib), FeeAstray);
    } else if IsTerminal(s.status) {
      forall steps | IsRun(Next, s, steps, With(lib)) ensures FeeAgrees(Run(Next, s, steps, With(lib))) {
        FeeOver(s, With(lib), steps);
      }
    } else if !Due(s) {
      forall steps | IsRun(Next, s, steps, With(lib)) ensures FeeAgrees(Run(Next, s, steps, With(lib))) {
        NothingDueRun(s, With(lib), steps);
      }
    } else if FeeLeftAlone(lib) {
      FeeSettles(s, lib);
    } else {
      FeeAstrayFrom(s, lib);
    }
  }

  lemma FeeSettles(s: System, lib: Liberties)
    requires Quiet(s) && Reachable(s) && FeeAgrees(s) && !IsTerminal(s.status) && FeeLeftAlone(lib)
    ensures FeeAlwaysAgrees(s, lib)
  {
    QuietHoldsNothing(s);
    forall steps | IsRun(Next, s, steps, With(lib)) ensures !FeeAstray(Run(Next, s, steps, With(lib))) {
      SettlingRun(s, lib, steps);
      var t := Run(Next, s, steps, With(lib));
      if Quiet(t) {
        QuietHoldsNothing(t);
      }
    }
  }

  lemma FeeAstrayFrom(s: System, lib: Liberties)
    requires Quiet(s) && Reachable(s) && Due(s) && !s.refunded && !IsTerminal(s.status) && !FeeLeftAlone(lib)
    ensures !FeeAlwaysAgrees(s, lib)
  {
    var t := Booked(s, lib, FeeAstray);
    if lib.overlaps {
      OverlapAstray(t, lib);
      Weaken(t, lib, FeeAstray, RefundedThoughDelivered);
    } else {
      DroppedRefundAstray(t, lib);
      Weaken(t, lib, FeeAstray, FeeLost);
    }
  }

  /** From dispatch on, in every run: the sub-order agrees iff none of its four liberties is taken. */
  lemma SubAgreesInEveryRunIff(lib: Liberties, fee: nat, hasPayment: bool)
    ensures SubAlwaysAgrees(Quoted(fee, hasPayment), lib) <==>
            !lib.cancels && !lib.handDeliveries && !lib.overlaps && !lib.dropsDelivery
  {
    SubAlwaysAgreesIff(Quoted(fee, hasPayment), lib);
  }

  /** The fee agrees iff none is due or neither of its two liberties is taken, whatever people do to the sub-order. */
  lemma FeeAgreesInEveryRunIff(lib: Liberties, fee: nat, hasPayment: bool)
    ensures FeeAlwaysAgrees(Quoted(fee, hasPayment), lib) <==>
            (hasPayment && fee > 0 ==> !lib.overlaps && !lib.dropsRefund)
  {
    FeeAlwaysAgreesIff(Quoted(fee, hasPayment), lib);
  }

  /**
   A person's step between courier calls leaves that standing exactly when it cancels a sub-order whose delivery
   has already failed: cancelling while the courier holds the parcel, or delivering by hand, does not.
   */
  lemma PersonKeepsStepIff(s: System, lib: Liberties, step: Step)
    requires Quiet(s) && Reachable(s) && SubLeftAlone(lib) && SubAlwaysAgrees(s, lib)
    requires Enabled(s, step) && (step.CancelSub? || step.DeliverByHand?)
    ensures SubAlwaysAgrees(Next(s, step), lib) <==> step.CancelSub? && IsFailure(s.status)
  {
    BookingStep(s, step);
    StepKeepsDue(s, step);
    assert forall h :: Busy(Next(s, step), h) <==> Busy(s, h);
    SubAlwaysAgreesIff(s, lib);
    SubAlwaysAgreesIff(Next(s, step), lib);
  }
}
