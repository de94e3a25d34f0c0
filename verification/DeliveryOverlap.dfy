/** Handlers of one delivery that overlap: exactly when they end in agreement, in whatever order they end. */
module DeliveryOverlap {
  import opened Results
  import opened Runs
  import opened Delivery
  import opened DeliveryProofs
  import opened DeliveryLiberties
  import Orders = StoreState

  /** The calls in flight go on to their end; nothing new arrives and nothing fails. */
  predicate Draining(s: System, step: Step) {
    step.Write? || step.Deliver? || step.Refund?
  }

  predicate Agrees(s: System) {
    FeeAgrees(s) && SubAgrees(s)
  }

  ghost predicate DrainsWell(s: System) {
    forall steps :: IsRun(Next, s, steps, Draining) && Quiet(Run(Next, s, steps, Draining)) ==>
      Agrees(Run(Next, s, steps, Draining))
  }

  /** Some handlers have read the row while the parcel was out, and have written nothing yet. */
  predicate Overlapping(s: System) {
    && s.status != QUOTED && !IsTerminal(s.status) && s.sub == Orders.DISPATCHED && !s.refunded
    && forall h :: h in s.calls ==>
         s.calls[h].Ended? || (s.calls[h].Seen? && s.calls[h].event != QUOTED && s.calls[h].out)
  }

  /** DELIVERED only beside DELIVERED and, where a fee is due, a failure only beside failures. */
  ghost predicate Compatible(s: System) {
    forall g, h :: Holds(s, g) && Holds(s, h) ==>
      && (s.calls[g].event == DELIVERED ==> s.calls[h].event == DELIVERED)
      && (Due(s) && IsFailure(s.calls[g].event) ==> IsFailure(s.calls[h].event))
  }

  /** What compatible handlers keep true of the row as they drain. */
  ghost predicate Harmony(s: System) {
    && Compatible(s)
    && s.sub in {Orders.DISPATCHED, Orders.DELIVERED}
    && (s.sub == Orders.DELIVERED ==> s.status == DELIVERED)
    && (s.refunded ==> FeeDue(s))
    && (forall h :: Holds(s, h) ==>
          && s.calls[h].out
          && (s.status == DELIVERED ==> s.calls[h].event == DELIVERED)
          && (FeeDue(s) ==> IsFailure(s.calls[h].event)))
    && (forall h :: h in s.calls ==> !s.calls[h].Booking?)
    && (forall h :: h in s.calls && s.calls[h].Delivering? ==> s.status == DELIVERED)
    && (forall h :: h in s.calls && s.calls[h].Refunding? ==> FeeDue(s))
    && (Quiet(s) ==> Agrees(s))
  }

  lemma HarmonyWrite(s: System, h: nat)
    requires Harmony(s) && Enabled(s, Write(h))
    ensures Harmony(Next(s, Write(h)))
  {
    var t := Next(s, Write(h));
    assert Holds(s, h);
    forall g ensures Holds(t, g) <==> Holds(s, g) && g != h {
    }
    forall g | g in t.calls && t.calls[g].Delivering? ensures t.status == DELIVERED {
      assert g != h ==> g in s.calls && s.calls[g].Delivering?;
    }
    forall g | g in t.calls && t.calls[g].Refunding? ensures FeeDue(t) {
      assert g != h ==> g in s.calls && s.calls[g].Refunding?;
    }
    assert h in t.calls;
  }

  lemma HarmonyEnd(s: System, step: Step)
    requires Harmony(s) && Enabled(s, step) && (step.Deliver? || step.Refund?)
    ensures Harmony(Next(s, step))
  {
    var t := Next(s, step);
    forall g ensures Holds(t, g) <==> Holds(s, g) {
    }
    assert step.h in s.calls;
  }

  lemma {:induction false} HarmonyRun(s: System, steps: seq<Step>)
    requires Harmony(s) && IsRun(Next, s, steps, Draining)
    ensures Harmony(Run(Next, s, steps, Draining))
    decreases |steps|
  {
    if steps != [] {
      if steps[0].Write? {
        HarmonyWrite(s, steps[0].h);
      } else {
        HarmonyEnd(s, steps[0]);
      }
      HarmonyRun(Next(s, steps[0]), steps[1..]);
    }
  }

  /** The parcel is delivered, or some handler but `last` is about to see to it. */
  ghost predicate DeliveryAhead(s: System, last: nat) {
    s.sub == Orders.DELIVERED || exists h :: h != last && Holds(s, h) && s.calls[h].event == DELIVERED
  }

  ghost predicate RefundAhead(s: System, last: nat) {
    s.refunded || (Due(s) && exists h :: h != last && Holds(s, h) && IsFailure(s.calls[h].event))
  }

  ghost predicate Drainable(s: System, last: nat, left: set<nat>) {
    && s.sub in {Orders.DISPATCHED, Orders.DELIVERED}
    && (forall h :: h in s.calls ==> s.calls[h].Ended? || (Holds(s, h) && s.calls[h].out))
    && (forall h :: h in left <==> Holds(s, h) && h != last)
  }

  lemma DrainOne(s: System, last: nat, left: set<nat>, h: nat) returns (t: System)
    requires Drainable(s, last, left) && h in left
    ensures IsRun(Next, s, Finishing(s, h), Draining) && t == Run(Next, s, Finishing(s, h), Draining)
    ensures Drainable(t, last, left - {h})
    ensures t.hasPayment == s.hasPayment && t.fee == s.fee
    ensures last in s.calls ==> last in t.calls && t.calls[last] == s.calls[last]
    ensures DeliveryAhead(s, last) ==> DeliveryAhead(t, last)
    ensures RefundAhead(s, last) ==> RefundAhead(t, last)
  {
    FinishingRuns(s, h, Draining);
    t := Run(Next, s, Finishing(s, h), Draining);
    forall g ensures Holds(t, g) <==> Holds(s, g) && g != h {
    }
    assert forall g :: Holds(t, g) ==> t.calls[g] == s.calls[g];
  }

  /** Every handler but `last` runs to its end, leaving its delivery or refund behind. */
  lemma {:induction false} DrainOthers(s: System, last: nat, left: set<nat>) returns (steps: seq<Step>)
    requires Drainable(s, last, left)
    ensures IsRun(Next, s, steps, Draining)
    ensures var t := Run(Next, s, steps, Draining);
            && Drainable(t, last, {})
            && t.hasPayment == s.hasPayment && t.fee == s.fee
            && (last in s.calls ==> last in t.calls && t.calls[last] == s.calls[last])
            && (DeliveryAhead(s, last) ==> t.sub == Orders.DELIVERED)
            && (RefundAhead(s, last) ==> t.refunded)
    decreases |left|
  {
    if left == {} {
      steps := [];
    } else {
      var h :| h in left;
      var t := DrainOne(s, last, left, h);
      var rest := DrainOthers(t, last, left - {h});
      RunConcat(Next, s, Finishing(s, h), rest, Draining);
      steps := Finishing(s, h) + rest;
    }
  }

  lemma IncompatibleDisagree(s: System, g: nat, h: nat)
    requires Overlapping(s) && Holds(s, g) && Holds(s, h)
    requires
      || (s.calls[g].event == DELIVERED && s.calls[h].event != DELIVERED)
      || (Due(s) && IsFailure(s.calls[g].event) && !IsFailure(s.calls[h].event))
    ensures !DrainsWell(s)
  {
    var left := set x | x in s.calls && Holds(s, x) && x != h;
    assert DeliveryAhead(s, h) || RefundAhead(s, h);
    var steps := DrainOthers(s, h, left);
    var t := Run(Next, s, steps, Draining);
    FinishingRuns(t, h, Draining);
    RunConcat(Next, s, steps, Finishing(t, h), Draining);
    var u := Run(Next, t, Finishing(t, h), Draining);
    forall x | x in u.calls ensures !Busy(u, x) {
      assert x != h ==> x in t.calls && !Holds(t, x);
    }
    assert !Agrees(u);
  }

  /**
   Handlers that overlap end in agreement, whatever their order, exactly when their events are compatible: DELIVERED
   beside anything else, or a failure beside anything else while a fee is due, can leave money or parcel misrecorded.
   */
  lemma OverlapAgreesIff(s: System)
    requires Overlapping(s)
    ensures DrainsWell(s) <==> Compatible(s)
  {
    if Compatible(s) {
      assert Harmony(s);
      forall steps | IsRun(Next, s, steps, Draining) && Quiet(Run(Next, s, steps, Draining))
        ensures Agrees(Run(Next, s, steps, Draining))
      {
        HarmonyRun(s, steps);
      }
    } else {
      var g, h :| Holds(s, g) && Holds(s, h)
               && !((s.calls[g].event == DELIVERED ==> s.calls[h].event == DELIVERED)
                    && (Due(s) && IsFailure(s.calls[g].event) ==> IsFailure(s.calls[h].event)));
      IncompatibleDisagree(s, g, h);
    }
  }

  /** For instance: one webhook of each kind arriving together on a parcel that is out. */
  lemma OverlappingEventsDisagree(s: System)
    requires s.status == BOOKED && s.calls == map[] && s.sub == Orders.DISPATCHED && !s.refunded
    ensures IsRun(Next, s, [Arrive(0, DELIVERED)] + ([Arrive(1, FAILED)] + []), AnyStep)
    ensures !DrainsWell(Run(Next, s, [Arrive(0, DELIVERED)] + ([Arrive(1, FAILED)] + []), AnyStep))
  {
    var s1 := Next(s, Arrive(0, DELIVERED));
    var s2 := Next(s1, Arrive(1, FAILED));
    StepThenRun(Next, s1, Arrive(1, FAILED), [], AnyStep);
    StepThenRun(Next, s, Arrive(0, DELIVERED), [Arrive(1, FAILED)] + [], AnyStep);
    IncompatibleDisagree(s2, 0, 1);
  }
}
