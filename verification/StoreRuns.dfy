/** Whole runs: any sequence of service calls, each one transaction, interleaved in any order. */
module StoreRuns {
  import opened Results
  import opened Sums
  import opened Inventory
  import opened StoreState
  import opened CartOps
  import opened CartProofs
  import opened OrderOps
  import opened OrderProofs
  import opened CartEffects
  import opened OrderEffects

  datatype Step =
    | AddToCart(owner: Owner, variant: VariantId, active: bool, quantity: int)
    | UpdateCartItem(owner: Owner, id: nat, quantity: int)
    | RemoveFromCart(owner: Owner, id: nat)
    | ClearCart(owner: Owner)
    | MergeGuestCart(key: nat, user: nat)
    | SweepItem(id: nat)
    | PlaceOrder(buyer: nat, lines: seq<LineRequest>, accepted: bool)
    | ConfirmSub(o: nat, i: nat)
    | DispatchSub(o: nat, i: nat)
    | DeliverSub(o: nat, i: nat)
    | CancelSub(o: nat, i: nat)
    | CancelOrder(o: nat)
    | ReceiveStock(variant: VariantId, quantity: int)
    | AdjustStock(variant: VariantId, delta: int)
    | ReturnStock(variant: VariantId, quantity: int)
    | Tick(elapsed: nat)

  function WithLevels(s: Store, r: Result<Levels>): Result<Store> {
    match r
    case Ok(ls) => Ok(s.(levels := ls))
    case Err(e) => Err(e)
  }

  /** The sweep's items are separate transactions, so any other step may come between two of them. */
  function Attempt(s: Store, step: Step): Result<Store> {
    match step
    case AddToCart(owner, v, active, q) => AfterAdd(s, owner, v, active, q)
    case UpdateCartItem(owner, id, q) => AfterUpdate(s, owner, id, q)
    case RemoveFromCart(owner, id) => AfterRemove(s, owner, id)
    case ClearCart(owner) => AfterClear(s, owner)
    case MergeGuestCart(key, user) => Ok(AfterMerge(s, key, user))
    case SweepItem(id) => AfterSweepItem(s, id)
    case PlaceOrder(buyer, lines, accepted) => AfterPlace(s, buyer, lines, accepted)
    case ConfirmSub(o, i) => if HasSub(s, o, i) then AfterConfirmSub(s, o, i) else Err(NotFound)
    case DispatchSub(o, i) => if HasSub(s, o, i) then AfterDispatchSub(s, o, i) else Err(NotFound)
    case DeliverSub(o, i) => if HasSub(s, o, i) then AfterDeliverSub(s, o, i) else Err(NotFound)
    case CancelSub(o, i) => if HasSub(s, o, i) then AfterCancelSub(s, o, i) else Err(NotFound)
    case CancelOrder(o) => if o < |s.orders| then AfterCancelOrder(s, o) else Err(NotFound)
    case ReceiveStock(v, q) => WithLevels(s, AfterReceive(s.levels, v, q))
    case AdjustStock(v, delta) => WithLevels(s, AfterAdjust(s.levels, v, delta))
    case ReturnStock(v, q) => WithLevels(s, AfterReturn(s.levels, v, q))
    case Tick(elapsed) => Ok(s.(now := s.now + elapsed))
  }

  /** A refused call rolls back. */
  function Apply(s: Store, step: Step): Store {
    match Attempt(s, step)
    case Ok(t) => t
    case Err(_) => s
  }

  function Run(s: Store, steps: seq<Step>): Store
    decreases |steps|
  {
    if steps == [] then s else Run(Apply(s, steps[0]), steps[1..])
  }

  function EmptyStore(now: int): Store {
    Store(map[], {}, [], [], now, 0)
  }

  // ---------------------------------------------------------------------------
  // The reservation balance
  // ---------------------------------------------------------------------------

  lemma AvailableOnlyKeepsInv(s: Store, ls: Levels)
    requires Inv(s) && AllExplained(ls)
    requires forall v: VariantId :: LevelOf(ls, v).reserved == LevelOf(s.levels, v).reserved
    ensures Inv(s.(levels := ls))
  {
    forall v: VariantId ensures Slack(s.(levels := ls), v) == 0 {
      assert Slack(s, v) == 0;
    }
  }

  lemma ReceiveKeepsInv(s: Store, v: VariantId, q: int, ls: Levels)
    requires Inv(s) && AfterReceive(s.levels, v, q) == Ok(ls)
    ensures Inv(s.(levels := ls))
  {
    ReceiveExplained(s.levels, v, q, ls);
    AvailableOnlyKeepsInv(s, ls);
  }

  lemma AdjustKeepsInv(s: Store, v: VariantId, delta: int, ls: Levels)
    requires Inv(s) && AfterAdjust(s.levels, v, delta) == Ok(ls)
    ensures Inv(s.(levels := ls))
  {
    AdjustExplained(s.levels, v, delta, ls);
    AvailableOnlyKeepsInv(s, ls);
  }

  lemma ReturnKeepsInv(s: Store, v: VariantId, q: int, ls: Levels)
    requires Inv(s) && AfterReturn(s.levels, v, q) == Ok(ls)
    ensures Inv(s.(levels := ls))
  {
    ReturnExplained(s.levels, v, q, ls);
    AvailableOnlyKeepsInv(s, ls);
  }

  lemma StockStepKeepsInv(s: Store, step: Step, t: Store)
    requires Inv(s) && (step.ReceiveStock? || step.AdjustStock? || step.ReturnStock?) && Attempt(s, step) == Ok(t)
    ensures Inv(t)
  {
    match step
    case ReceiveStock(v, q) => ReceiveKeepsInv(s, v, q, t.levels);
    case AdjustStock(v, d) => AdjustKeepsInv(s, v, d, t.levels);
    case ReturnStock(v, q) => ReturnKeepsInv(s, v, q, t.levels);
  }

  lemma CartStepKeepsInv(s: Store, step: Step, t: Store)
    requires Inv(s) && Attempt(s, step) == Ok(t)
    requires step.AddToCart? || step.UpdateCartItem? || step.RemoveFromCart? || step.ClearCart?
             || step.MergeGuestCart? || step.SweepItem?
    ensures Inv(t)
  {
    match step
    case AddToCart(owner, v, active, q) => AddKeepsInv(s, owner, v, active, q, t);
    case UpdateCartItem(owner, id, q) => UpdateKeepsInv(s, owner, id, q, t);
    case RemoveFromCart(owner, id) => RemoveKeepsInv(s, owner, id);
    case ClearCart(owner) => ClearKeepsInv(s, owner);
    case MergeGuestCart(key, user) => MergeKeepsInv(s, key, user);
    case SweepItem(id) => SweepItemKeepsInv(s, id);
  }

  lemma OrderStepKeepsInv(s: Store, step: Step, t: Store)
    requires Inv(s) && Attempt(s, step) == Ok(t)
    requires step.PlaceOrder? || step.ConfirmSub? || step.DispatchSub? || step.DeliverSub?
             || step.CancelSub? || step.CancelOrder?
    ensures Inv(t)
  {
    match step
    case PlaceOrder(buyer, lines, accepted) => PlaceKeepsInv(s, buyer, lines, accepted, t);
    case ConfirmSub(o, i) => ConfirmKeepsInv(s, o, i);
    case DispatchSub(o, i) => DispatchKeepsInv(s, o, i);
    case DeliverSub(o, i) => DeliverKeepsInv(s, o, i);
    case CancelSub(o, i) => CancelSubKeepsInv(s, o, i);
    case CancelOrder(o) => CancelOrderExact(s, o);
  }

  lemma StepKeepsInv(s: Store, step: Step)
    requires Inv(s)
    ensures Inv(Apply(s, step))
  {
    if Attempt(s, step).Ok? {
      var t := Attempt(s, step).value;
      if step.ReceiveStock? || step.AdjustStock? || step.ReturnStock? {
        StockStepKeepsInv(s, step, t);
      } else if step.Tick? {
        forall v: VariantId ensures Slack(t, v) == 0 {
          assert Slack(s, v) == 0;
        }
      } else if step.PlaceOrder? || step.ConfirmSub? || step.DispatchSub? || step.DeliverSub?
                || step.CancelSub? || step.CancelOrder? {
        OrderStepKeepsInv(s, step, t);
      } else {
        CartStepKeepsInv(s, step, t);
      }
    }
  }

  lemma {:induction false} RunKeepsInv(s: Store, steps: seq<Step>)
    requires Inv(s)
    ensures Inv(Run(s, steps))
    decreases |steps|
  {
    if steps != [] {
      StepKeepsInv(s, steps[0]);
      RunKeepsInv(Apply(s, steps[0]), steps[1..]);
    }
  }

  /**
   In every state reachable from an empty shop, for every variant, reserved stock is exactly the cart
   reservations plus the lines of PENDING and CONFIRMED sub-orders; every cart item holds its own
   quantity; every order status is the closed form; and every level is explained by its log.
   */
  lemma ReservedIsAccountedFor(now: int, steps: seq<Step>)
    ensures var s := Run(EmptyStore(now), steps);
            && (forall v: VariantId :: LevelOf(s.levels, v).reserved == Held(s.items, v) + Open(s.orders, v))
            && (forall i :: i in s.items ==> i.hold.Some? && i.hold.value.quantity == i.quantity)
            && (forall o :: o in s.orders ==> o.status == ClosedForm(Statuses(o.subs)))
            && AllExplained(s.levels)
  {
    var s0 := EmptyStore(now);
    assert Inv(s0);
    RunKeepsInv(s0, steps);
    var s := Run(s0, steps);
    forall v: VariantId ensures LevelOf(s.levels, v).reserved == Held(s.items, v) + Open(s.orders, v) {
      assert Slack(s, v) == 0;
    }
    forall i | i in s.items ensures i.hold.Some? && i.hold.value.quantity == i.quantity {
      assert ItemOk(i, s.carts, s.nextId);
    }
    forall o | o in s.orders ensures o.status == ClosedForm(Statuses(o.subs)) {
      assert OrderOk(o);
    }
  }

  // ---------------------------------------------------------------------------
  // No call is ever refused with "only N reserved"
  // ---------------------------------------------------------------------------

  lemma {:induction false} CheckoutRefusals(s: Store, buyer: nat, lines: seq<LineRequest>)
    requires MidCheckout(s)
    ensures AfterReserveLines(s, buyer, lines) != Err(OnlyReserved)
    decreases |lines|
  {
    if lines != [] {
      var l := lines[0];
      if l.quantity > 0 && l.active {
        assert Slack(s, l.variant) >= 0;
        ConsumeKeeps(s, buyer, l.variant, l.quantity);
      }
      var r := AfterReserveLine(s, buyer, l);
      if r.Ok? {
        ReserveLineMoves(s, buyer, l, r.value);
        CheckoutRefusals(r.value, buyer, lines[1..]);
      }
    }
  }

  lemma UpdateRefusals(s: Store, owner: Owner, id: nat, q: int)
    requires Inv(s)
    ensures AfterUpdate(s, owner, id, q) != Err(OnlyReserved)
  {
    if q > 0 && FindId(s.items, id).Some? && s.items[FindId(s.items, id).value].owner == owner {
      var k := FindId(s.items, id).value;
      HoldCovered(s, k);
      assert ItemOk(s.items[k], s.carts, s.nextId);
    }
  }

  lemma RemovalRefusals(s: Store, step: Step)
    requires Inv(s) && (step.RemoveFromCart? || step.ClearCart? || step.SweepItem?)
    ensures Attempt(s, step) != Err(OnlyReserved)
  {
    match step
    case RemoveFromCart(owner, id) =>
      if FindId(s.items, id).Some? {
        DropKeepsInv(s, FindId(s.items, id).value);
      }
    case ClearCart(owner) => ClearKeepsInv(s, owner);
    case SweepItem(id) => SweepItemKeepsInv(s, id);
  }

  lemma TransitionRefusals(s: Store, step: Step)
    requires Inv(s) && (step.DispatchSub? || step.CancelSub? || step.CancelOrder?)
    ensures Attempt(s, step) != Err(OnlyReserved)
  {
    match step
    case DispatchSub(o, i) =>
      if HasSub(s, o, i) {
        DispatchKeepsInv(s, o, i);
      }
    case CancelSub(o, i) =>
      if HasSub(s, o, i) {
        CancelSubKeepsInv(s, o, i);
      }
    case CancelOrder(o) =>
      if o < |s.orders| && s.orders[o].status != DELIVERED {
        CancelFromRefusals(s, o, 0);
      }
  }

  lemma {:induction false} CancelFromRefusals(s: Store, o: nat, i: nat)
    requires Inv(s) && o < |s.orders| && i <= |s.orders[o].subs|
    ensures AfterCancelFrom(s, o, i) != Err(OnlyReserved)
    decreases |s.orders[o].subs| - i
  {
    if i < |s.orders[o].subs| {
      CancelSubKeepsInv(s, o, i);
      if s.orders[o].subs[i].status == CANCELLED {
        CancelFromRefusals(s, o, i + 1);
      } else if AfterCancelSub(s, o, i).Ok? {
        CancelFromRefusals(AfterCancelSub(s, o, i).value, o, i + 1);
      }
    }
  }

  /** In a reachable state no call whatever fails because too little is reserved. */
  lemma NeverOnlyReserved(s: Store, step: Step)
    requires Inv(s)
    ensures Attempt(s, step) != Err(OnlyReserved)
  {
    if step.PlaceOrder? {
      forall v: VariantId ensures Slack(s, v) >= 0 {
        assert Slack(s, v) == 0;
      }
      CheckoutRefusals(s, step.buyer, step.lines);
    } else if step.UpdateCartItem? {
      UpdateRefusals(s, step.owner, step.id, step.quantity);
    } else if step.RemoveFromCart? || step.ClearCart? || step.SweepItem? {
      RemovalRefusals(s, step);
    } else if step.DispatchSub? || step.CancelSub? || step.CancelOrder? {
      TransitionRefusals(s, step);
    }
  }

  // ---------------------------------------------------------------------------
  // Orders only move forward
  // ---------------------------------------------------------------------------

  predicate Forward(a: Status, b: Status) {
    Progress(a) <= Progress(b) && (a == DELIVERED ==> b == DELIVERED)
  }

  /** Same buyer, suppliers and lines; every sub-order stays or advances, and delivered ones stay. */
  ghost predicate OrderForward(x: Order, y: Order) {
    && y.buyer == x.buyer && |y.subs| == |x.subs|
    && forall k :: 0 <= k < |x.subs| ==>
         y.subs[k] == x.subs[k].(status := y.subs[k].status) && Forward(x.subs[k].status, y.subs[k].status)
  }

  ghost predicate OrdersForward(s: Store, t: Store) {
    && |s.orders| <= |t.orders|
    && forall o :: 0 <= o < |s.orders| ==> OrderForward(s.orders[o], t.orders[o])
  }

  lemma WithStatusForward(s: Store, o: nat, i: nat, st: Status, ls: Levels)
    requires HasSub(s, o, i) && Forward(s.orders[o].subs[i].status, st)
    ensures OrdersForward(s, s.(levels := ls, orders := s.orders[o := WithStatus(s.orders[o], i, st)]))
  {
  }

  lemma TransitionForward(s: Store, step: Step, t: Store)
    requires Inv(s) && Attempt(s, step) == Ok(t)
    requires step.ConfirmSub? || step.DispatchSub? || step.DeliverSub? || step.CancelSub?
    ensures OrdersForward(s, t)
  {
    match step
    case ConfirmSub(o, i) => WithStatusForward(s, o, i, CONFIRMED, t.levels);
    case DispatchSub(o, i) => WithStatusForward(s, o, i, DISPATCHED, t.levels);
    case DeliverSub(o, i) => WithStatusForward(s, o, i, DELIVERED, t.levels);
    case CancelSub(o, i) =>
      if s.orders[o].subs[i].status != CANCELLED {
        WithStatusForward(s, o, i, CANCELLED, t.levels);
      }
  }

  lemma CancelOrderForward(s: Store, o: nat, t: Store)
    requires Inv(s) && o < |s.orders| && AfterCancelOrder(s, o) == Ok(t)
    ensures OrdersForward(s, t)
  {
    CancelOrderExact(s, o);
    var (x, y) := (s.orders[o], t.orders[o]);
    forall k | 0 <= k < |x.subs|
      ensures y.subs[k] == x.subs[k].(status := y.subs[k].status) && Forward(x.subs[k].status, y.subs[k].status)
    {
      assert x.subs[k] in x.subs;
    }
  }

  lemma CartLeavesOrders(s: Store, step: Step, t: Store)
    requires Inv(s) && Attempt(s, step) == Ok(t)
    requires !(step.PlaceOrder? || step.ConfirmSub? || step.DispatchSub? || step.DeliverSub?
               || step.CancelSub? || step.CancelOrder?)
    ensures t.orders == s.orders
  {
  }

  lemma StepForward(s: Store, step: Step)
    requires Inv(s)
    ensures OrdersForward(s, Apply(s, step))
  {
    if Attempt(s, step).Ok? {
      var t := Attempt(s, step).value;
      if step.PlaceOrder? {
        forall v: VariantId ensures Slack(s, v) >= 0 {
          assert Slack(s, v) == 0;
        }
        ReserveLinesMoves(s, step.buyer, step.lines, AfterReserveLines(s, step.buyer, step.lines).value);
      } else if step.CancelOrder? {
        CancelOrderForward(s, step.o, t);
      } else if step.ConfirmSub? || step.DispatchSub? || step.DeliverSub? || step.CancelSub? {
        TransitionForward(s, step, t);
      } else {
        CartLeavesOrders(s, step, t);
      }
    }
  }

  lemma {:induction false} RunForward(s: Store, steps: seq<Step>)
    requires Inv(s)
    ensures OrdersForward(s, Run(s, steps))
    decreases |steps|
  {
    if steps != [] {
      var t := Apply(s, steps[0]);
      StepForward(s, steps[0]);
      StepKeepsInv(s, steps[0]);
      RunForward(t, steps[1..]);
      var u := Run(t, steps[1..]);
      forall o | 0 <= o < |s.orders| ensures OrderForward(s.orders[o], u.orders[o]) {
        assert OrderForward(s.orders[o], t.orders[o]) && OrderForward(t.orders[o], u.orders[o]);
      }
    }
  }

  lemma ForwardOrders(x: Order, y: Order)
    requires OrderOk(x) && OrderOk(y) && OrderForward(x, y)
    ensures Progress(x.status) <= Progress(y.status)
    ensures x.status in {DELIVERED, CANCELLED} ==> y == x
  {
    var (xs, ys) := (Statuses(x.subs), Statuses(y.subs));
    ClosedFormIsMinimum(xs);
    ClosedFormIsMinimum(ys);
    assert forall k :: 0 <= k < |xs| ==> Forward(xs[k], ys[k]);
    if ClosedForm(ys) != CANCELLED {
      var k :| 0 <= k < |ys| && ys[k] == ClosedForm(ys);
      assert xs[k] in xs && Progress(ClosedForm(xs)) <= Progress(xs[k]);
    }
    if x.status == DELIVERED || x.status == CANCELLED {
      FinishedOrderStays(x, y);
    }
  }

  lemma FinishedOrderStays(x: Order, y: Order)
    requires OrderOk(x) && OrderOk(y) && OrderForward(x, y) && x.status in {DELIVERED, CANCELLED}
    ensures y == x
  {
    var xs := Statuses(x.subs);
    ClosedFormIsMinimum(xs);
    forall k | 0 <= k < |x.subs| ensures y.subs[k] == x.subs[k] {
      assert xs[k] in xs && Progress(xs[k]) >= 3 && Forward(x.subs[k].status, y.subs[k].status);
    }
    assert y.subs == x.subs;
  }

  /** Over any run an order's status never moves back, and a DELIVERED or CANCELLED order never changes. */
  lemma OrdersNeverMoveBack(s: Store, steps: seq<Step>, o: nat)
    requires Inv(s) && o < |s.orders|
    ensures var t := Run(s, steps);
            && o < |t.orders|
            && Progress(s.orders[o].status) <= Progress(t.orders[o].status)
            && (s.orders[o].status in {DELIVERED, CANCELLED} ==> t.orders[o] == s.orders[o])
  {
    RunForward(s, steps);
    RunKeepsInv(s, steps);
    var t := Run(s, steps);
    assert OrderOk(s.orders[o]) && OrderOk(t.orders[o]);
    ForwardOrders(s.orders[o], t.orders[o]);
  }

  // ---------------------------------------------------------------------------
  // Stock on hand only moves through the warehouse door
  // ---------------------------------------------------------------------------

  /** What a step brings in or takes out: goods received or returned, corrections, and dispatched lines. */
  function DoorFlow(s: Store, step: Step, v: VariantId): int {
    if Attempt(s, step).Err? then 0
    else
      match step
      case ReceiveStock(w, q) => if w == v then q else 0
      case AdjustStock(w, delta) => if w == v then delta else 0
      case ReturnStock(w, q) => if w == v then q else 0
      case DispatchSub(o, i) => -LineUnits(s.orders[o].subs[i].lines, v)
      case _ => 0
  }

  function DoorFlows(s: Store, steps: seq<Step>, v: VariantId): int
    decreases |steps|
  {
    if steps == [] then 0 else DoorFlow(s, steps[0], v) + DoorFlows(Apply(s, steps[0]), steps[1..], v)
  }

  lemma StockStepFlows(s: Store, step: Step, v: VariantId)
    requires step.ReceiveStock? || step.AdjustStock? || step.ReturnStock?
    ensures LevelOf(Apply(s, step).levels, v).OnHand() == LevelOf(s.levels, v).OnHand() + DoorFlow(s, step, v)
  {
    if Attempt(s, step).Ok? {
      var t := Attempt(s, step).value;
      match step
      case ReceiveStock(w, q) => CallMoves(s.levels, Receive(w, q), t.levels);
      case AdjustStock(w, d) => CallMoves(s.levels, Adjust(w, d), t.levels);
      case ReturnStock(w, q) => CallMoves(s.levels, Return(w, q), t.levels);
    }
  }

  lemma CartStepKeepsOnHand(s: Store, step: Step, t: Store)
    requires Inv(s) && Attempt(s, step) == Ok(t)
    requires step.AddToCart? || step.UpdateCartItem? || step.RemoveFromCart? || step.ClearCart?
             || step.MergeGuestCart? || step.SweepItem?
    ensures SameOnHand(s.levels, t.levels)
  {
    match step
    case AddToCart(owner, v, active, q) => AddExactly(s, owner, v, active, q);
    case UpdateCartItem(owner, id, q) =>
      UpdateExactly(s, owner, id, q);
      var i :| OwnedRow(s, i, owner, id);
    case RemoveFromCart(owner, id) =>
      RemoveExactly(s, owner, id);
      var i :| OwnedRow(s, i, owner, id);
      assert RowDropped(s, t, i);
    case ClearCart(owner) => ClearExactly(s, owner);
    case MergeGuestCart(key, user) => MergeExactly(s, key, user);
    case SweepItem(id) =>
      var k := FindId(s.items, id).value;
      assert s.items[k] in s.items;
      SweepItemExactly(s, s.items[k]);
  }

  lemma OrderStepFlows(s: Store, step: Step, t: Store, v: VariantId)
    requires Inv(s) && Attempt(s, step) == Ok(t)
    requires step.PlaceOrder? || step.ConfirmSub? || step.DispatchSub? || step.DeliverSub?
             || step.CancelSub? || step.CancelOrder?
    ensures LevelOf(t.levels, v).OnHand() == LevelOf(s.levels, v).OnHand() + DoorFlow(s, step, v)
  {
    match step
    case PlaceOrder(buyer, lines, accepted) => PlaceExactly(s, buyer, lines, accepted);
    case ConfirmSub(o, i) => ConfirmExactly(s, o, i);
    case DispatchSub(o, i) => DispatchExactly(s, o, i);
    case DeliverSub(o, i) => DeliverExactly(s, o, i);
    case CancelSub(o, i) => CancelSubExactly(s, o, i);
    case CancelOrder(o) => CancelOrderExactly(s, o);
  }

  lemma StepFlows(s: Store, step: Step, v: VariantId)
    requires Inv(s)
    ensures LevelOf(Apply(s, step).levels, v).OnHand() == LevelOf(s.levels, v).OnHand() + DoorFlow(s, step, v)
  {
    if Attempt(s, step).Ok? {
      var t := Attempt(s, step).value;
      if step.ReceiveStock? || step.AdjustStock? || step.ReturnStock? {
        StockStepFlows(s, step, v);
      } else if step.PlaceOrder? || step.ConfirmSub? || step.DispatchSub? || step.DeliverSub?
                || step.CancelSub? || step.CancelOrder? {
        OrderStepFlows(s, step, t, v);
      } else if !step.Tick? {
        CartStepKeepsOnHand(s, step, t);
      }
    }
  }

  lemma {:induction false} RunFlows(s: Store, steps: seq<Step>, v: VariantId)
    requires Inv(s)
    ensures LevelOf(Run(s, steps).levels, v).OnHand() == LevelOf(s.levels, v).OnHand() + DoorFlows(s, steps, v)
    decreases |steps|
  {
    if steps != [] {
      StepFlows(s, steps[0], v);
      StepKeepsInv(s, steps[0]);
      RunFlows(Apply(s, steps[0]), steps[1..], v);
    }
  }

  /**
   After any run from an empty shop, what is on hand of a variant is what was received, returned and corrected less
   what was dispatched: no cart, checkout, cancellation or sweep makes or loses a unit.
   */
  lemma OnHandThroughTheDoor(now: int, steps: seq<Step>, v: VariantId)
    ensures LevelOf(Run(EmptyStore(now), steps).levels, v).OnHand() == DoorFlows(EmptyStore(now), steps, v)
  {
    assert Inv(EmptyStore(now));
    RunFlows(EmptyStore(now), steps, v);
  }
}
