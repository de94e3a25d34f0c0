/**
 One platform-brokered delivery (apps/delivery/services.py) as a small-step system: `book_delivery` holds the row
 while it asks the courier for a job; `handle_status_event` reads the row, writes the new status, and then delivers
 the sub-order or refunds the fee. Webhooks may repeat, overlap and arrive in any order; any call may crash.
 */
module Delivery {
  import opened Results
  import Orders = StoreState

  datatype DeliveryStatus = QUOTED | BOOKED | EN_ROUTE | DELIVERED | FAILED | CANCELLED

  /**
   Where a call stands: booking with a job just created, or handling an event, for which it has read the row and
   whether the sub-order was then out.
   */
  datatype Pc =
    | Booking
    | Seen(event: DeliveryStatus, out: bool)
    | Delivering
    | Refunding
    | Ended

  /**
   `sub` is the sub-order's own status; `jobs` are courier jobs created; `refunded` whether the fee's refund key has
   been executed.
   */
  datatype System = System(
    fee: nat,
    hasPayment: bool,
    status: DeliveryStatus,
    sub: Orders.Status,
    jobs: nat,
    refunded: bool,
    holder: Option<nat>,
    calls: map<nat, Pc>)

  predicate IsFailure(st: DeliveryStatus) {
    st == FAILED || st == CANCELLED
  }

  predicate IsTerminal(st: DeliveryStatus) {
    st == DELIVERED || IsFailure(st)
  }

  predicate Busy(s: System, h: nat) {
    h in s.calls && !s.calls[h].Ended?
  }

  // ---------------------------------------------------------------------------
  // Steps and runs
  // ---------------------------------------------------------------------------

  datatype Step =
    | CreateJob(h: nat)
    | CommitBooking(h: nat)
    | Arrive(h: nat, event: DeliveryStatus)
    | Write(h: nat)
    | Deliver(h: nat)
    | Refund(h: nat)
    | RefundError(h: nat, executed: bool)
    | Crash(h: nat)
    | CancelSub
    | DeliverByHand

  /** Events name a delivery by its courier id, which a quote does not have yet. */
  predicate Enabled(s: System, step: Step) {
    match step
    case CreateJob(h) => !Busy(s, h) && s.holder.None? && s.status == QUOTED
    case CommitBooking(h) => h in s.calls && s.calls[h].Booking?
    case Arrive(h, event) => !Busy(s, h) && s.status != QUOTED && event != QUOTED
    case Write(h) => h in s.calls && s.calls[h].Seen?
    case Deliver(h) => h in s.calls && s.calls[h].Delivering?
    case Refund(h) => h in s.calls && s.calls[h].Refunding?
    case RefundError(h, _) => h in s.calls && s.calls[h].Refunding?
    case Crash(h) => Busy(s, h)
    case CancelSub => s.sub != Orders.DELIVERED
    case DeliverByHand => s.sub == Orders.DISPATCHED
  }

  function WithCall(s: System, h: nat, pc: Pc): System {
    s.(calls := s.calls[h := pc])
  }

  /** What the handler does once it has written `event`: it delivers only a sub-order it read as DISPATCHED. */
  function Afterwards(fee: nat, hasPayment: bool, event: DeliveryStatus, out: bool): Pc {
    if event == DELIVERED then if out then Delivering else Ended
    else if IsFailure(event) && hasPayment && fee > 0 then Refunding
    else Ended
  }

  function Next(s: System, step: Step): System
    requires Enabled(s, step)
  {
    match step
    case CreateJob(h) => WithCall(s.(jobs := s.jobs + 1, holder := Some(h)), h, Booking)
    case CommitBooking(h) => WithCall(s.(status := BOOKED, holder := None), h, Ended)
    case Arrive(h, event) =>
      WithCall(s, h, if IsTerminal(s.status) then Ended else Seen(event, s.sub == Orders.DISPATCHED))
    case Write(h) =>
      var pc := s.calls[h];
      WithCall(s.(status := pc.event), h, Afterwards(s.fee, s.hasPayment, pc.event, pc.out))
    case Deliver(h) => WithCall(s.(sub := Orders.DELIVERED), h, Ended)
    case Refund(h) => WithCall(s.(refunded := true), h, Ended)
    case RefundError(h, executed) => WithCall(s.(refunded := s.refunded || executed), h, Ended)
    case Crash(h) => WithCall(s.(holder := if s.holder == Some(h) then None else s.holder), h, Ended)
    case CancelSub => s.(sub := Orders.CANCELLED)
    case DeliverByHand => s.(sub := Orders.DELIVERED)
  }

  /** The sub-order has just been dispatched; its courier is about to be booked. */
  function Quoted(fee: nat, hasPayment: bool): System {
    System(fee, hasPayment, QUOTED, Orders.DISPATCHED, 0, false, None, map[])
  }

  // ---------------------------------------------------------------------------
  // As the code runs: the delivery's row, without interruption
  // ---------------------------------------------------------------------------

  /** One event from arrival to end, nothing else happening. */
  function Handled(s: System, event: DeliveryStatus): System
    requires s.status != QUOTED && event != QUOTED && s.calls == map[]
  {
    var arrived := Next(s, Arrive(0, event));
    if arrived.calls[0].Ended? then arrived
    else
      var written := Next(arrived, Write(0));
      match written.calls[0]
      case Delivering => Next(written, Deliver(0))
      case Refunding => Next(written, Refund(0))
      case _ => written
  }

  lemma HandledIs(s: System, event: DeliveryStatus)
    requires s.status != QUOTED && event != QUOTED && s.calls == map[]
    ensures Handled(s, event) ==
            if IsTerminal(s.status) then s.(calls := map[0 := Ended])
            else
              s.(status := event,
                 sub := if event == DELIVERED && s.sub == Orders.DISPATCHED then Orders.DELIVERED else s.sub,
                 refunded := s.refunded || (IsFailure(event) && s.hasPayment && s.fee > 0),
                 calls := map[0 := Ended])
  {
    var arrived := Next(s, Arrive(0, event));
    assert arrived.calls == map[0 := arrived.calls[0]];
  }

  /** A quote booked without interruption: the row is BOOKED, with one courier job more and the row let go. */
  lemma BookingIs(s: System, h: nat)
    requires s.status == QUOTED && s.holder.None? && !Busy(s, h)
    ensures Enabled(s, CreateJob(h)) && Enabled(Next(s, CreateJob(h)), CommitBooking(h))
    ensures Next(Next(s, CreateJob(h)), CommitBooking(h)) ==
            s.(status := BOOKED, jobs := s.jobs + 1, calls := s.calls[h := Ended])
  {
    var t := Next(Next(s, CreateJob(h)), CommitBooking(h));
    assert t.calls == s.calls[h := Ended];
  }

  class CourierDelivery {
    const fee: nat
    const hasPayment: bool
    var status: DeliveryStatus
    var jobs: nat
    var sub: Orders.Status
    var refunded: bool

    constructor (fee: nat, hasPayment: bool)
      ensures this.fee == fee && this.hasPayment == hasPayment
      ensures View(map[]) == Quoted(fee, hasPayment)
    {
      this.fee, this.hasPayment := fee, hasPayment;
      status, jobs, sub, refunded := QUOTED, 0, Orders.DISPATCHED, false;
    }

    function View(calls: map<nat, Pc>): System
      reads this
    {
      System(fee, hasPayment, status, sub, jobs, refunded, None, calls)
    }

    /** A provider error leaves the row a quote. */
    method BookDelivery(courierAnswers: bool) returns (ok: bool)
      modifies this
      ensures View(map[0 := Ended]) ==
              if old(status) != QUOTED || !courierAnswers then old(View(map[0 := Ended]))
              else Next(Next(old(View(map[])), CreateJob(0)), CommitBooking(0))
      ensures ok == (old(status) != QUOTED || courierAnswers)
    {
      if status != QUOTED {
        return true;
      }
      if !courierAnswers {
        return false;
      }
      jobs := jobs + 1;
      status := BOOKED;
      return true;
    }

    method HandleStatusEvent(event: DeliveryStatus)
      requires status != QUOTED && event != QUOTED
      modifies this
      ensures View(map[0 := Ended]) == Handled(old(View(map[])), event)
    {
      HandledIs(View(map[]), event);
      if status == DELIVERED || status == FAILED || status == CANCELLED {
        return;
      }
      if event == DELIVERED {
        status := DELIVERED;
        if sub == Orders.DISPATCHED {
          sub := Orders.DELIVERED;
        }
        return;
      }
      if event == FAILED || event == CANCELLED {
        status := event;
        if hasPayment && fee > 0 {
          refunded := true;
        }
        return;
      }
      status := event;
    }
  }
}
