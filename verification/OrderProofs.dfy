/** Checkout and the transitions keep the reservation balance and the order status. */
module OrderProofs {
  import opened Results
  import opened Sums
  import opened Grouping
  import opened Inventory
  import opened StoreState
  import opened CartOps
  import opened CartProofs
  import opened OrderOps

  // ---------------------------------------------------------------------------
  // Order status: the incremental form against the closed form
  // ---------------------------------------------------------------------------

  /** What the closed form means: cancelled when all are, else the minimum over the live sub-orders. */
  lemma {:induction false} ClosedFormIsMinimum(sts: seq<Status>)
    ensures ClosedForm(sts) == CANCELLED <==> forall st :: st in sts ==> st == CANCELLED
    ensures forall st :: st in sts ==> Progress(ClosedForm(sts)) <= Progress(st)
    ensures ClosedForm(sts) != CANCELLED ==> ClosedForm(sts) in sts
  {
    if sts != [] {
      ClosedFormIsMinimum(sts[1..]);
      assert forall st :: st in sts <==> st == sts[0] || st in sts[1..];
    }
  }

  /** A test "all live sub-orders are at least this far" is a test of the closed form. */
  lemma AllLiveAtLeast(sts: seq<Status>, allowed: set<Status>, n: nat)
    requires n <= 3 && forall st: Status :: st in allowed <==> n <= Progress(st) <= 3
    ensures AllIn(Filter(sts, NotCancelled()), allowed) <==> n <= Progress(ClosedForm(sts))
  {
    ClosedFormIsMinimum(sts);
    if n > Progress(ClosedForm(sts)) {
      assert ClosedForm(sts) in Filter(sts, NotCancelled());
    }
  }

  lemma NoneLive(sts: seq<Status>)
    ensures Filter(sts, NotCancelled()) == [] <==> ClosedForm(sts) == CANCELLED
  {
    ClosedFormIsMinimum(sts);
    var live := Filter(sts, NotCancelled());
    assert live == [] || live[0] in live;
    if ClosedForm(sts) != CANCELLED {
      assert ClosedForm(sts) in live;
    }
  }

  /** The sync writes the closed form whenever that is not PENDING, and otherwise leaves the row alone. */
  lemma SyncWritesClosedForm(status: Status, sts: seq<Status>)
    ensures Synced(status, sts) == if ClosedForm(sts) == PENDING then status else ClosedForm(sts)
  {
    NoneLive(sts);
    AllLiveAtLeast(sts, {DELIVERED}, 3);
    AllLiveAtLeast(sts, {DISPATCHED, DELIVERED}, 2);
    AllLiveAtLeast(sts, {CONFIRMED, DISPATCHED, DELIVERED}, 1);
  }

  /**
   The `else: return` branch is sound: from a row in closed form, moving one sub-order forward or
   cancelling it leaves the row in closed form, because no sub-order ever becomes PENDING again.
   */
  lemma StatusStaysClosed(sts: seq<Status>, i: nat, st: Status)
    requires i < |sts| && st != PENDING
    ensures Synced(ClosedForm(sts), sts[i := st]) == ClosedForm(sts[i := st])
  {
    var after := sts[i := st];
    SyncWritesClosedForm(ClosedForm(sts), after);
    if ClosedForm(after) == PENDING {
      ClosedFormIsMinimum(after);
      ClosedFormIsMinimum(sts);
      var k :| 0 <= k < |after| && after[k] == PENDING;
      assert sts[k] == PENDING;
    }
  }

  lemma WithStatusOk(order: Order, i: nat, st: Status)
    requires OrderOk(order) && i < |order.subs| && st != PENDING
    ensures OrderOk(WithStatus(order, i, st))
  {
    var subs := WithStatus(order, i, st).subs;
    StatusStaysClosed(Statuses(order.subs), i, st);
    assert Statuses(subs) == Statuses(order.subs)[i := st];
    forall b | b in subs ensures LinesOk(b.lines) {
      var k :| 0 <= k < |subs| && subs[k] == b;
      assert order.subs[k] in order.subs;
    }
  }

  lemma ReplaceOrder(orders: seq<Order>, o: nat, x: Order)
    requires OrdersOk(orders) && o < |orders| && OrderOk(x)
    ensures OrdersOk(orders[o := x])
  {
  }

  /** Open lines move exactly with the open lines of the sub-order whose status changes. */
  lemma WithStatusOpen(orders: seq<Order>, o: nat, i: nat, st: Status, v: VariantId)
    requires o < |orders| && i < |orders[o].subs|
    ensures var b := orders[o].subs[i];
            Open(orders[o := WithStatus(orders[o], i, st)], v)
            == Open(orders, v) - SubOpen(v)(b) + SubOpen(v)(b.(status := st))
  {
    var b := orders[o].subs[i];
    SumByUpdate(orders[o].subs, i, b.(status := st), SubOpen(v));
    SumByUpdate(orders, o, WithStatus(orders[o], i, st), OrderOpen(v));
  }

  // ---------------------------------------------------------------------------
  // Confirm and deliver: no stock moves
  // ---------------------------------------------------------------------------

  /** Confirming succeeds exactly from PENDING. */
  lemma ConfirmKeepsInv(s: Store, o: nat, i: nat)
    requires Inv(s) && HasSub(s, o, i)
    ensures AfterConfirmSub(s, o, i).Ok? <==> s.orders[o].subs[i].status == PENDING
    ensures AfterConfirmSub(s, o, i).Ok? ==> Inv(AfterConfirmSub(s, o, i).value)
  {
    if AfterConfirmSub(s, o, i).Ok? {
      SilentMoveKeepsInv(s, o, i, CONFIRMED);
    }
  }

  /** Delivering succeeds exactly from DISPATCHED. */
  lemma DeliverKeepsInv(s: Store, o: nat, i: nat)
    requires Inv(s) && HasSub(s, o, i)
    ensures AfterDeliverSub(s, o, i).Ok? <==> s.orders[o].subs[i].status == DISPATCHED
    ensures AfterDeliverSub(s, o, i).Ok? ==> Inv(AfterDeliverSub(s, o, i).value)
  {
    if AfterDeliverSub(s, o, i).Ok? {
      SilentMoveKeepsInv(s, o, i, DELIVERED);
    }
  }

  lemma SilentMoveKeepsInv(s: Store, o: nat, i: nat, st: Status)
    requires Inv(s) && HasSub(s, o, i) && st != PENDING && IsOpen(st) == IsOpen(s.orders[o].subs[i].status)
    ensures Inv(s.(orders := s.orders[o := WithStatus(s.orders[o], i, st)]))
  {
    assert OrderOk(s.orders[o]);
    WithStatusOk(s.orders[o], i, st);
    ReplaceOrder(s.orders, o, WithStatus(s.orders[o], i, st));
    var s' := s.(orders := s.orders[o := WithStatus(s.orders[o], i, st)]);
    forall v: VariantId ensures Slack(s', v) == 0 {
      WithStatusOpen(s.orders, o, i, st, v);
      assert Slack(s, v) == 0;
    }
  }

  // ---------------------------------------------------------------------------
  // Dispatch and cancel: stock leaves with the open lines
  // ---------------------------------------------------------------------------

  /** Dispatching lines one by one, repeats included, is never refused when they are covered together. */
  lemma {:induction false} DispatchLinesMoves(ls: Levels, lines: seq<Line>)
    requires LinesOk(lines) && AllExplained(ls)
    requires forall v: VariantId :: SumBy(lines, QtyOf(v)) <= LevelOf(ls, v).reserved
    ensures var r := AfterDispatchLines(ls, lines);
            && r.Ok? && AllExplained(r.value)
            && forall v: VariantId :: LevelOf(r.value, v).reserved == LevelOf(ls, v).reserved - SumBy(lines, QtyOf(v))
    decreases |lines|
  {
    if lines != [] {
      var (l, rest) := (lines[0], lines[1..]);
      LinesNonNegative(rest, l.variant);
      assert SumBy(lines, QtyOf(l.variant)) == l.quantity + SumBy(rest, QtyOf(l.variant));
      var ls1 := AfterDispatch(ls, l.variant, l.quantity).value;
      DispatchExplained(ls, l.variant, l.quantity, ls1);
      forall v: VariantId ensures SumBy(rest, QtyOf(v)) <= LevelOf(ls1, v).reserved {
        assert SumBy(lines, QtyOf(v)) == QtyOf(v)(l) + SumBy(rest, QtyOf(v));
      }
      DispatchLinesMoves(ls1, rest);
      var ls2 := AfterDispatchLines(ls1, rest).value;
      forall v: VariantId ensures LevelOf(ls2, v).reserved == LevelOf(ls, v).reserved - SumBy(lines, QtyOf(v)) {
        assert SumBy(lines, QtyOf(v)) == QtyOf(v)(l) + SumBy(rest, QtyOf(v));
      }
    }
  }

  lemma {:induction false} ReleaseLinesMoves(ls: Levels, lines: seq<Line>)
    requires LinesOk(lines) && AllExplained(ls)
    requires forall v: VariantId :: SumBy(lines, QtyOf(v)) <= LevelOf(ls, v).reserved
    ensures var r := AfterReleaseLines(ls, lines);
            && r.Ok? && AllExplained(r.value)
            && forall v: VariantId :: LevelOf(r.value, v).reserved == LevelOf(ls, v).reserved - SumBy(lines, QtyOf(v))
    decreases |lines|
  {
    if lines != [] {
      var (l, rest) := (lines[0], lines[1..]);
      LinesNonNegative(rest, l.variant);
      assert SumBy(lines, QtyOf(l.variant)) == l.quantity + SumBy(rest, QtyOf(l.variant));
      var ls1 := AfterRelease(ls, l.variant, l.quantity).value;
      ReleaseExplained(ls, l.variant, l.quantity, ls1);
      forall v: VariantId ensures SumBy(rest, QtyOf(v)) <= LevelOf(ls1, v).reserved {
        assert SumBy(lines, QtyOf(v)) == QtyOf(v)(l) + SumBy(rest, QtyOf(v));
      }
      ReleaseLinesMoves(ls1, rest);
      var ls2 := AfterReleaseLines(ls1, rest).value;
      forall v: VariantId ensures LevelOf(ls2, v).reserved == LevelOf(ls, v).reserved - SumBy(lines, QtyOf(v)) {
        assert SumBy(lines, QtyOf(v)) == QtyOf(v)(l) + SumBy(rest, QtyOf(v));
      }
    }
  }

  /** Closing an open sub-order, given levels from which its lines have been taken out. */
  lemma CloseKeepsInv(s: Store, o: nat, i: nat, st: Status, ls: Levels)
    requires Inv(s) && HasSub(s, o, i) && IsOpen(s.orders[o].subs[i].status) && !IsOpen(st)
    requires AllExplained(ls)
    requires forall v: VariantId ::
               LevelOf(ls, v).reserved == LevelOf(s.levels, v).reserved - SumBy(s.orders[o].subs[i].lines, QtyOf(v))
    ensures Inv(s.(levels := ls, orders := s.orders[o := WithStatus(s.orders[o], i, st)]))
  {
    assert OrderOk(s.orders[o]);
    WithStatusOk(s.orders[o], i, st);
    ReplaceOrder(s.orders, o, WithStatus(s.orders[o], i, st));
    var s' := s.(levels := ls, orders := s.orders[o := WithStatus(s.orders[o], i, st)]);
    forall v: VariantId ensures Slack(s', v) == 0 {
      WithStatusOpen(s.orders, o, i, st, v);
      assert Slack(s, v) == 0;
    }
  }

  lemma SubLinesOk(s: Store, o: nat, i: nat)
    requires Inv(s) && HasSub(s, o, i)
    ensures LinesOk(s.orders[o].subs[i].lines)
  {
    assert OrderOk(s.orders[o]);
    assert s.orders[o].subs[i] in s.orders[o].subs;
  }

  /** Dispatch succeeds exactly on PENDING and CONFIRMED sub-orders: stock can never refuse it. */
  lemma DispatchKeepsInv(s: Store, o: nat, i: nat)
    requires Inv(s) && HasSub(s, o, i)
    ensures AfterDispatchSub(s, o, i).Ok? <==> IsOpen(s.orders[o].subs[i].status)
    ensures AfterDispatchSub(s, o, i).Ok? ==> Inv(AfterDispatchSub(s, o, i).value)
  {
    var b := s.orders[o].subs[i];
    if IsOpen(b.status) {
      SubLinesOk(s, o, i);
      forall v: VariantId ensures SumBy(b.lines, QtyOf(v)) <= LevelOf(s.levels, v).reserved {
        LinesCovered(s, o, i, v);
      }
      DispatchLinesMoves(s.levels, b.lines);
      CloseKeepsInv(s, o, i, DISPATCHED, AfterDispatchLines(s.levels, b.lines).value);
    }
  }

  /** Cancelling a sub-order fails exactly when it is delivered. */
  lemma CancelSubKeepsInv(s: Store, o: nat, i: nat)
    requires Inv(s) && HasSub(s, o, i)
    ensures AfterCancelSub(s, o, i).Ok? <==> s.orders[o].subs[i].status != DELIVERED
    ensures AfterCancelSub(s, o, i).Ok? ==> Inv(AfterCancelSub(s, o, i).value)
  {
    var b := s.orders[o].subs[i];
    if IsOpen(b.status) {
      SubLinesOk(s, o, i);
      forall v: VariantId ensures SumBy(b.lines, QtyOf(v)) <= LevelOf(s.levels, v).reserved {
        LinesCovered(s, o, i, v);
      }
      ReleaseLinesMoves(s.levels, b.lines);
      CloseKeepsInv(s, o, i, CANCELLED, AfterReleaseLines(s.levels, b.lines).value);
    } else if b.status == DISPATCHED {
      SilentMoveKeepsInv(s, o, i, CANCELLED);
    }
  }

  // ---------------------------------------------------------------------------
  // cancel_order
  // ---------------------------------------------------------------------------

  /** `t` is `s` with sub-orders `i` and later of order `o` cancelled, and no other order touched. */
  ghost predicate CancelledFrom(s: Store, o: nat, i: nat, t: Store)
    requires o < |s.orders|
  {
    && t == s.(levels := t.levels, orders := t.orders)
    && |t.orders| == |s.orders|
    && (forall p: nat :: p < |s.orders| && p != o ==> t.orders[p] == s.orders[p])
    && t.orders[o].buyer == s.orders[o].buyer && |t.orders[o].subs| == |s.orders[o].subs|
    && forall k: nat :: k < |s.orders[o].subs| ==>
         t.orders[o].subs[k] == if k < i then s.orders[o].subs[k] else s.orders[o].subs[k].(status := CANCELLED)
  }

  lemma CancelSubShape(s: Store, o: nat, i: nat)
    requires HasSub(s, o, i) && AfterCancelSub(s, o, i).Ok?
    ensures var t := AfterCancelSub(s, o, i).value;
            && t == s.(levels := t.levels, orders := t.orders)
            && t.orders == s.orders[o := t.orders[o]]
            && t.orders[o].buyer == s.orders[o].buyer
            && t.orders[o].subs == s.orders[o].subs[i := s.orders[o].subs[i].(status := CANCELLED)]
  {
  }

  /** One sub-order cancelled, then the rest. */
  lemma CancelledThenRest(s: Store, o: nat, i: nat, t: Store, u: Store)
    requires HasSub(s, o, i) && AfterCancelSub(s, o, i) == Ok(t) && CancelledFrom(t, o, i + 1, u)
    ensures CancelledFrom(s, o, i, u)
  {
    CancelSubShape(s, o, i);
  }

  lemma {:induction false} CancelFromShape(s: Store, o: nat, i: nat)
    requires o < |s.orders| && i <= |s.orders[o].subs| && AfterCancelFrom(s, o, i).Ok?
    ensures CancelledFrom(s, o, i, AfterCancelFrom(s, o, i).value)
    decreases |s.orders[o].subs| - i
  {
    if i < |s.orders[o].subs| {
      if s.orders[o].subs[i].status == CANCELLED {
        CancelFromShape(s, o, i + 1);
      } else {
        var t := AfterCancelSub(s, o, i).value;
        CancelFromShape(t, o, i + 1);
        CancelledThenRest(s, o, i, t, AfterCancelFrom(t, o, i + 1).value);
      }
    }
  }

  predicate NoneDeliveredFrom(s: Store, o: nat, i: nat)
    requires o < |s.orders|
  {
    forall k: nat :: i <= k < |s.orders[o].subs| ==> s.orders[o].subs[k].status != DELIVERED
  }

  lemma CancelSubLeavesRest(s: Store, o: nat, i: nat)
    requires HasSub(s, o, i) && AfterCancelSub(s, o, i).Ok?
    ensures NoneDeliveredFrom(AfterCancelSub(s, o, i).value, o, i + 1) <==> NoneDeliveredFrom(s, o, i + 1)
  {
    CancelSubShape(s, o, i);
    var t := AfterCancelSub(s, o, i).value;
    assert forall k: nat :: i < k < |s.orders[o].subs| ==> t.orders[o].subs[k] == s.orders[o].subs[k];
  }

  lemma {:induction false} CancelFromKeepsInv(s: Store, o: nat, i: nat)
    requires Inv(s) && o < |s.orders| && i <= |s.orders[o].subs|
    ensures AfterCancelFrom(s, o, i).Ok? <==> NoneDeliveredFrom(s, o, i)
    ensures AfterCancelFrom(s, o, i).Ok? ==> Inv(AfterCancelFrom(s, o, i).value)
    decreases |s.orders[o].subs| - i
  {
    if i < |s.orders[o].subs| {
      if s.orders[o].subs[i].status == CANCELLED {
        CancelFromKeepsInv(s, o, i + 1);
      } else {
        CancelSubKeepsInv(s, o, i);
        if AfterCancelSub(s, o, i).Ok? {
          CancelSubLeavesRest(s, o, i);
          CancelFromKeepsInv(AfterCancelSub(s, o, i).value, o, i + 1);
        }
      }
    }
  }

  /**
   `cancel_order` succeeds exactly when no sub-order has been delivered; then every sub-order and the
   order itself are CANCELLED, no other order changes, and the reservation balance holds.
   */
  lemma CancelOrderExact(s: Store, o: nat)
    requires Inv(s) && o < |s.orders|
    ensures AfterCancelOrder(s, o).Ok? <==> forall b :: b in s.orders[o].subs ==> b.status != DELIVERED
    ensures AfterCancelOrder(s, o).Ok? ==>
            var t := AfterCancelOrder(s, o).value;
            Inv(t) && CancelledFrom(s, o, 0, t) && t.orders[o].status == CANCELLED
  {
    assert OrderOk(s.orders[o]);
    var before := Statuses(s.orders[o].subs);
    ClosedFormIsMinimum(before);
    CancelFromKeepsInv(s, o, 0);
    if s.orders[o].status == DELIVERED {
      var k :| 0 <= k < |before| && before[k] == DELIVERED;
      assert s.orders[o].subs[k] in s.orders[o].subs;
    }
    if AfterCancelOrder(s, o).Ok? {
      var t := AfterCancelOrder(s, o).value;
      CancelFromShape(s, o, 0);
      assert OrderOk(t.orders[o]);
      ClosedFormIsMinimum(Statuses(t.orders[o].subs));
    }
  }

  // ---------------------------------------------------------------------------
  // place_order
  // ---------------------------------------------------------------------------

  /** Part of the invariant that survives in the middle of a checkout, while units await their order. */
  ghost predicate MidCheckout(s: Store) {
    && ItemsOk(s.items, s.carts, s.nextId)
    && OrdersOk(s.orders)
    && AllExplained(s.levels)
    && forall v: VariantId :: Slack(s, v) >= 0
  }

  lemma ReserveSlack(s: Store, v: VariantId, q: int, ls: Levels, w: VariantId)
    requires AfterReserve(s.levels, v, q) == Ok(ls)
    ensures Slack(s.(levels := ls), w) == Slack(s, w) + if w == v then q else 0
  {
  }

  /** One line: the reserved units no hold or order accounts for grow by exactly its quantity. */
  lemma ReserveLineSlack(s: Store, buyer: nat, l: LineRequest, t: Store, v: VariantId)
    requires MidCheckout(s) && AfterReserveLine(s, buyer, l) == Ok(t)
    ensures Slack(t, v) == Slack(s, v) + RequestQty(v)(l)
  {
    assert Slack(s, l.variant) >= 0;
    ConsumeKeeps(s, buyer, l.variant, l.quantity);
    var (u, taken) := AfterConsume(s, buyer, l.variant, l.quantity).value;
    assert Slack(u, v) == Slack(s, v) + if taken && v == l.variant then l.quantity else 0;
    if !taken {
      ReserveSlack(u, l.variant, l.quantity, t.levels, v);
    }
  }

  lemma ReserveLineMoves(s: Store, buyer: nat, l: LineRequest, t: Store)
    requires MidCheckout(s) && AfterReserveLine(s, buyer, l) == Ok(t)
    ensures MidCheckout(t) && l.quantity > 0 && t == s.(levels := t.levels, items := t.items)
    ensures forall v: VariantId :: Slack(t, v) == Slack(s, v) + RequestQty(v)(l)
  {
    assert Slack(s, l.variant) >= 0;
    ConsumeKeeps(s, buyer, l.variant, l.quantity);
    var (u, taken) := AfterConsume(s, buyer, l.variant, l.quantity).value;
    if !taken {
      ReserveExplained(u.levels, l.variant, l.quantity, t.levels);
    }
    forall v: VariantId ensures Slack(t, v) == Slack(s, v) + RequestQty(v)(l) && Slack(t, v) >= 0 {
      assert Slack(s, v) >= 0;
      ReserveLineSlack(s, buyer, l, t, v);
    }
  }

  lemma {:induction false} ReserveLinesMoves(s: Store, buyer: nat, lines: seq<LineRequest>, t: Store)
    requires MidCheckout(s) && AfterReserveLines(s, buyer, lines) == Ok(t)
    ensures MidCheckout(t) && t == s.(levels := t.levels, items := t.items)
    ensures forall l :: l in lines ==> l.quantity > 0
    ensures forall v: VariantId :: Slack(t, v) == Slack(s, v) + SumBy(lines, RequestQty(v))
    decreases |lines|
  {
    if lines != [] {
      var u := AfterReserveLine(s, buyer, lines[0]).value;
      ReserveLineMoves(s, buyer, lines[0], u);
      ReserveLinesMoves(u, buyer, lines[1..], t);
      forall v: VariantId ensures Slack(t, v) == Slack(s, v) + SumBy(lines, RequestQty(v)) {
        assert Slack(u, v) == Slack(s, v) + RequestQty(v)(lines[0]);
      }
    }
  }

  /** Splitting the lines by supplier puts every unit into exactly one open sub-order. */
  lemma SubsCarryLines(lines: seq<LineRequest>, v: VariantId)
    ensures SumBy(ToSubs(GroupBy(lines, SupplierOf())), SubOpen(v)) == SumBy(lines, RequestQty(v))
  {
    var groups := GroupBy(lines, SupplierOf());
    forall j | 0 <= j < |groups|
      ensures ItemSum(RequestQty(v))(groups[j]) == SubOpen(v)(ToSubs(groups)[j])
    {
      SumByAligned(groups[j].items, ToLines(groups[j].items), RequestQty(v), QtyOf(v));
    }
    SumByAligned(groups, ToSubs(groups), ItemSum(RequestQty(v)), SubOpen(v));
    GroupingKeepsSums(lines, SupplierOf(), RequestQty(v));
  }

  lemma NewOrderOk(buyer: nat, lines: seq<LineRequest>)
    requires lines != [] && forall l :: l in lines ==> l.quantity > 0
    ensures OrderOk(Order(buyer, PENDING, ToSubs(GroupBy(lines, SupplierOf()))))
  {
    var groups := GroupBy(lines, SupplierOf());
    var subs := ToSubs(groups);
    GroupByPartitions(lines, SupplierOf());
    assert SupplierOf()(lines[0]) in Keys(groups);
    forall b | b in subs ensures LinesOk(b.lines) {
      var j :| 0 <= j < |subs| && subs[j] == b;
      forall k | 0 <= k < |b.lines| ensures b.lines[k].quantity > 0 {
        assert groups[j].items[k] in lines;
      }
    }
    ClosedFormIsMinimum(Statuses(subs));
    assert Statuses(subs)[0] == PENDING;
  }

  /**
   Checkout keeps the balance: what the cart holds gave up and what was reserved afresh is exactly what
   the new order's open lines account for.
   */
  lemma PlaceKeepsInv(s: Store, buyer: nat, lines: seq<LineRequest>, accepted: bool, s': Store)
    requires Inv(s) && AfterPlace(s, buyer, lines, accepted) == Ok(s')
    ensures Inv(s')
  {
    var t := AfterReserveLines(s, buyer, lines).value;
    assert MidCheckout(s) by {
      forall v: VariantId ensures Slack(s, v) >= 0 {
        assert Slack(s, v) == 0;
      }
    }
    ReserveLinesMoves(s, buyer, lines, t);
    NewOrderOk(buyer, lines);
    var order := Order(buyer, PENDING, ToSubs(GroupBy(lines, SupplierOf())));
    forall v: VariantId ensures Slack(s', v) == 0 {
      SubsCarryLines(lines, v);
      SumBySnoc(t.orders, order, OrderOpen(v));
      assert Slack(s, v) == 0;
    }
  }
}
