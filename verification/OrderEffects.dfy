/**
 What checkout and the sub-order transitions do to stock, cart rows and orders, told without their specifications:
 when each succeeds, and everything it leaves behind.
 */
module OrderEffects {
  import opened Results
  import opened Sums
  import opened Grouping
  import opened Inventory
  import opened StoreState
  import opened CartOps
  import opened CartProofs
  import opened CartEffects
  import opened OrderOps
  import opened OrderProofs

  // ---------------------------------------------------------------------------
  // What a buyer can draw on
  // ---------------------------------------------------------------------------

  predicate IsLive(i: CartItem, now: int) {
    i.hold.Some? && i.hold.value.expiresAt > now
  }

  function LiveHoldOf(buyer: nat, v: VariantId, now: int): CartItem -> int {
    (i: CartItem) => if IsRow(i, User(buyer), v) && IsLive(i, now) then i.quantity else 0
  }

  /** Units of `v` that the buyer's own cart holds and has not let lapse. */
  function LiveHold(s: Store, buyer: nat, v: VariantId): int {
    SumBy(s.items, LiveHoldOf(buyer, v, s.now))
  }

  /** What a checkout by this buyer can draw on: available units, and the buyer's own live hold. */
  function Spare(s: Store, buyer: nat, v: VariantId): int {
    LevelOf(s.levels, v).available + LiveHold(s, buyer, v)
  }

  lemma LiveHoldIs(s: Store, buyer: nat, v: VariantId)
    requires ItemsOk(s.items, s.carts, s.nextId)
    ensures LiveHold(s, buyer, v) ==
            match FindItem(s.items, User(buyer), v)
            case None => 0
            case Some(k) => if IsLive(s.items[k], s.now) then s.items[k].quantity else 0
  {
    OneRow(s.items, s.carts, s.nextId, User(buyer), v);
    match FindItem(s.items, User(buyer), v)
    case None => Nothing(s.items, LiveHoldOf(buyer, v, s.now));
    case Some(k) =>
      if IsLive(s.items[k], s.now) {
        SumByPointwise(s.items, LiveHoldOf(buyer, v, s.now), InCart(User(buyer), v));
      } else {
        Nothing(s.items, LiveHoldOf(buyer, v, s.now));
      }
  }

  // ---------------------------------------------------------------------------
  // One line of a checkout
  // ---------------------------------------------------------------------------

  predicate Sellable(l: LineRequest) {
    l.quantity > 0 && l.active
  }

  /** A row that a line for `v` uses up. */
  predicate UsedBy(i: CartItem, buyer: nat, v: VariantId, now: int) {
    IsRow(i, User(buyer), v) && IsLive(i, now)
  }

  /** The buyer's live row for `v` is gone, and every other row stands. */
  ghost predicate HoldUsed(s: Store, t: Store, buyer: nat, v: VariantId) {
    forall i :: i in t.items <==> i in s.items && !UsedBy(i, buyer, v, s.now)
  }

  /** `n` units of `v` went to the order: from the buyer's hold first, then from what is available. */
  ghost predicate Drawn(s: Store, t: Store, buyer: nat, v: VariantId, n: int) {
    && SameOnHand(s.levels, t.levels)
    && LevelOf(t.levels, v).available == Spare(s, buyer, v) - n
    && forall w: VariantId :: w != v ==> LevelOf(t.levels, w).available == LevelOf(s.levels, w).available
  }

  lemma RemovedRow(s: Store, k: nat, buyer: nat)
    requires ItemsOk(s.items, s.carts, s.nextId) && k < |s.items|
    requires UsedBy(s.items[k], buyer, s.items[k].variant, s.now)
    ensures HoldUsed(s, s.(items := RemoveAt(s.items, k)), buyer, s.items[k].variant)
  {
    var (x, r) := (s.items[k], RemoveAt(s.items, k));
    forall i ensures i in r <==> i in s.items && !UsedBy(i, buyer, x.variant, s.now) {
      if i in r {
        var n :| 0 <= n < |r| && r[n] == i;
        assert i == s.items[if n < k then n else n + 1];
        assert if n < k then Apart(s.items[n], x) else Apart(x, s.items[n + 1]);
      }
      if i in s.items && !UsedBy(i, buyer, x.variant, s.now) {
        var n :| 0 <= n < |s.items| && s.items[n] == i;
        assert r[if n < k then n else n - 1] == i;
      }
    }
  }

  lemma NoLiveRow(s: Store, buyer: nat, v: VariantId)
    requires ItemsOk(s.items, s.carts, s.nextId)
    requires match FindItem(s.items, User(buyer), v) case None => true case Some(k) => !IsLive(s.items[k], s.now)
    ensures LiveHold(s, buyer, v) == 0 && HoldUsed(s, s, buyer, v)
  {
    LiveHoldIs(s, buyer, v);
    OneRow(s.items, s.carts, s.nextId, User(buyer), v);
  }

  lemma FreshLineExactly(s: Store, buyer: nat, l: LineRequest)
    requires MidCheckout(s) && Sellable(l)
    requires match FindItem(s.items, User(buyer), l.variant)
             case None => true
             case Some(k) => !IsLive(s.items[k], s.now)
    ensures AfterReserveLine(s, buyer, l).Ok? <==> l.quantity <= Spare(s, buyer, l.variant)
    ensures AfterReserveLine(s, buyer, l).Ok? ==>
              var t := AfterReserveLine(s, buyer, l).value;
              HoldUsed(s, t, buyer, l.variant) && Drawn(s, t, buyer, l.variant, l.quantity)
  {
    NoLiveRow(s, buyer, l.variant);
    assert AfterConsume(s, buyer, l.variant, l.quantity) == Ok((s, false));
    CallSucceedsIff(s.levels, Reserve(l.variant, l.quantity));
    if AfterReserveLine(s, buyer, l).Ok? {
      CallMoves(s.levels, Reserve(l.variant, l.quantity), AfterReserveLine(s, buyer, l).value.levels);
    }
  }

  lemma HeldLineExactly(s: Store, buyer: nat, l: LineRequest, k: nat)
    requires MidCheckout(s) && Sellable(l)
    requires FindItem(s.items, User(buyer), l.variant) == Some(k) && IsLive(s.items[k], s.now)
    ensures AfterReserveLine(s, buyer, l).Ok? <==> l.quantity <= Spare(s, buyer, l.variant)
    ensures AfterReserveLine(s, buyer, l).Ok? ==>
              var t := AfterReserveLine(s, buyer, l).value;
              t.items == RemoveAt(s.items, k) && Drawn(s, t, buyer, l.variant, l.quantity)
  {
    LiveHoldIs(s, buyer, l.variant);
    assert ItemOk(s.items[k], s.carts, s.nextId) && Slack(s, l.variant) >= 0;
    HandOverSucceeds(s, k, l.quantity);
    var (u, taken) := AfterHandOver(s, k, l.quantity).value;
    var held := s.items[k].quantity;
    if held < l.quantity {
      CallMoves(s.levels, Release(l.variant, held), u.levels);
      CallSucceedsIff(u.levels, Reserve(l.variant, l.quantity));
      if AfterReserveLine(s, buyer, l).Ok? {
        CallMoves(u.levels, Reserve(l.variant, l.quantity), AfterReserveLine(s, buyer, l).value.levels);
      }
    } else if held > l.quantity {
      CallMoves(s.levels, Release(l.variant, held - l.quantity), u.levels);
    }
  }

  /** One line: it goes through exactly when the buyer can draw on its units, and draws them from the hold first. */
  lemma LineExactly(s: Store, buyer: nat, l: LineRequest)
    requires MidCheckout(s)
    ensures AfterReserveLine(s, buyer, l).Ok? <==> Sellable(l) && l.quantity <= Spare(s, buyer, l.variant)
    ensures AfterReserveLine(s, buyer, l).Ok? ==>
              var t := AfterReserveLine(s, buyer, l).value;
              && MidCheckout(t) && t == s.(levels := t.levels, items := t.items)
              && HoldUsed(s, t, buyer, l.variant) && Drawn(s, t, buyer, l.variant, l.quantity)
  {
    if Sellable(l) {
      var found := FindItem(s.items, User(buyer), l.variant);
      if found.Some? && IsLive(s.items[found.value], s.now) {
        HeldLineExactly(s, buyer, l, found.value);
        RemovedRow(s, found.value, buyer);
      } else {
        FreshLineExactly(s, buyer, l);
      }
      if AfterReserveLine(s, buyer, l).Ok? {
        ReserveLineMoves(s, buyer, l, AfterReserveLine(s, buyer, l).value);
      }
    }
  }

  /** Afterwards the buyer can draw on so many units less, of this variant only. */
  lemma SpareAfterLine(s: Store, t: Store, buyer: nat, v: VariantId, n: int, w: VariantId)
    requires ItemsOk(s.items, s.carts, s.nextId) && ItemsOk(t.items, t.carts, t.nextId) && t.now == s.now
    requires HoldUsed(s, t, buyer, v) && Drawn(s, t, buyer, v, n)
    ensures Spare(t, buyer, w) == Spare(s, buyer, w) - if w == v then n else 0
  {
    if w == v {
      Nothing(t.items, LiveHoldOf(buyer, v, t.now));
    } else {
      SameRowsSameSum(s, t, LiveHoldOf(buyer, w, s.now));
    }
  }

  // ---------------------------------------------------------------------------
  // All the lines
  // ---------------------------------------------------------------------------

  function Wanted(lines: seq<LineRequest>, v: VariantId): int {
    SumBy(lines, RequestQty(v))
  }

  predicate AllSellable(lines: seq<LineRequest>) {
    forall l :: l in lines ==> Sellable(l)
  }

  predicate Wants(lines: seq<LineRequest>, v: VariantId) {
    exists l :: l in lines && l.variant == v
  }

  ghost predicate CanDraw(s: Store, buyer: nat, lines: seq<LineRequest>) {
    forall v: VariantId :: Wanted(lines, v) <= Spare(s, buyer, v)
  }

  /** Exactly the buyer's live rows of the variants wanted are gone. */
  ghost predicate HoldsUsed(s: Store, t: Store, buyer: nat, lines: seq<LineRequest>) {
    forall i :: i in t.items <==> i in s.items && !(Wants(lines, i.variant) && UsedBy(i, buyer, i.variant, s.now))
  }

  /** The units wanted went to the order: those of live holds first, what these have too many coming back. */
  ghost predicate AllDrawn(s: Store, t: Store, buyer: nat, lines: seq<LineRequest>) {
    && SameOnHand(s.levels, t.levels)
    && forall v: VariantId ::
         LevelOf(t.levels, v).available ==
         LevelOf(s.levels, v).available + (if Wants(lines, v) then LiveHold(s, buyer, v) else 0) - Wanted(lines, v)
  }

  lemma WantedNonNegative(lines: seq<LineRequest>, v: VariantId)
    requires AllSellable(lines)
    ensures Wanted(lines, v) >= 0
  {
    SumByNonNegative(lines, RequestQty(v));
  }

  lemma CanDrawStep(s: Store, t: Store, buyer: nat, lines: seq<LineRequest>)
    requires lines != [] && AllSellable(lines)
    requires MidCheckout(s) && MidCheckout(t) && t.now == s.now
    requires HoldUsed(s, t, buyer, lines[0].variant) && Drawn(s, t, buyer, lines[0].variant, lines[0].quantity)
    ensures CanDraw(t, buyer, lines[1..]) <==> CanDraw(s, buyer, lines)
  {
    var l := lines[0];
    forall v: VariantId
      ensures Wanted(lines[1..], v) <= Spare(t, buyer, v) <==> Wanted(lines, v) <= Spare(s, buyer, v)
    {
      SpareAfterLine(s, t, buyer, l.variant, l.quantity, v);
      assert Wanted(lines, v) == RequestQty(v)(l) + Wanted(lines[1..], v);
    }
  }

  /** Lines go through together exactly when, variant by variant, the buyer can draw on all their units. */
  lemma {:induction false} LinesGoThroughIff(s: Store, buyer: nat, lines: seq<LineRequest>)
    requires MidCheckout(s)
    ensures AfterReserveLines(s, buyer, lines).Ok? <==> AllSellable(lines) && CanDraw(s, buyer, lines)
    decreases |lines|
  {
    if lines == [] {
      NothingWanted(s, buyer);
    } else {
      var (l, rest) := (lines[0], lines[1..]);
      LineExactly(s, buyer, l);
      if AfterReserveLine(s, buyer, l).Ok? {
        var t := AfterReserveLine(s, buyer, l).value;
        LinesGoThroughIff(t, buyer, rest);
        assert AllSellable(lines) <==> Sellable(l) && AllSellable(rest);
        if AllSellable(lines) {
          CanDrawStep(s, t, buyer, lines);
        }
      } else if AllSellable(lines) {
        WantedNonNegative(rest, l.variant);
        assert Wanted(lines, l.variant) == l.quantity + Wanted(rest, l.variant);
      }
    }
  }

  lemma NothingWanted(s: Store, buyer: nat)
    requires MidCheckout(s)
    ensures CanDraw(s, buyer, [])
  {
    forall v: VariantId ensures Wanted([], v) <= Spare(s, buyer, v) {
      SumByNonNegative(s.items, LiveHoldOf(buyer, v, s.now));
    }
  }

  lemma {:induction false} LinesLeave(s: Store, buyer: nat, lines: seq<LineRequest>, t: Store)
    requires MidCheckout(s) && AfterReserveLines(s, buyer, lines) == Ok(t)
    ensures MidCheckout(t) && t == s.(levels := t.levels, items := t.items)
    ensures HoldsUsed(s, t, buyer, lines) && AllDrawn(s, t, buyer, lines)
    decreases |lines|
  {
    if lines != [] {
      var (l, rest) := (lines[0], lines[1..]);
      LineExactly(s, buyer, l);
      var u := AfterReserveLine(s, buyer, l).value;
      LinesLeave(u, buyer, rest, t);
      HoldsUsedStep(s, u, t, buyer, lines);
      AllDrawnStep(s, u, t, buyer, lines);
    }
  }

  lemma WantsStep(lines: seq<LineRequest>, v: VariantId)
    requires lines != []
    ensures Wants(lines, v) <==> lines[0].variant == v || Wants(lines[1..], v)
  {
  }

  lemma HoldsUsedStep(s: Store, u: Store, t: Store, buyer: nat, lines: seq<LineRequest>)
    requires lines != [] && u.now == s.now
    requires HoldUsed(s, u, buyer, lines[0].variant) && HoldsUsed(u, t, buyer, lines[1..])
    ensures HoldsUsed(s, t, buyer, lines)
  {
    forall i
      ensures i in t.items <==> i in s.items && !(Wants(lines, i.variant) && UsedBy(i, buyer, i.variant, s.now))
    {
      WantsStep(lines, i.variant);
    }
  }

  lemma AllDrawnStep(s: Store, u: Store, t: Store, buyer: nat, lines: seq<LineRequest>)
    requires lines != [] && MidCheckout(s) && MidCheckout(u) && u.now == s.now
    requires HoldUsed(s, u, buyer, lines[0].variant) && Drawn(s, u, buyer, lines[0].variant, lines[0].quantity)
    requires AllDrawn(u, t, buyer, lines[1..])
    ensures AllDrawn(s, t, buyer, lines)
  {
    var l := lines[0];
    forall v: VariantId
      ensures LevelOf(t.levels, v).available ==
              LevelOf(s.levels, v).available + (if Wants(lines, v) then LiveHold(s, buyer, v) else 0) - Wanted(lines, v)
    {
      WantsStep(lines, v);
      assert Wanted(lines, v) == RequestQty(v)(l) + Wanted(lines[1..], v);
      SpareAfterLine(s, u, buyer, l.variant, l.quantity, v);
      if v == l.variant {
        Nothing(u.items, LiveHoldOf(buyer, v, u.now));
      } else {
        SameRowsSameSum(s, u, LiveHoldOf(buyer, v, s.now));
      }
    }
  }

  // ---------------------------------------------------------------------------
  // place_order
  // ---------------------------------------------------------------------------

  /** The lines bought from one supplier, in the order asked for. */
  function LinesFrom(lines: seq<LineRequest>, supplier: nat): seq<Line> {
    if lines == [] then []
    else
      (if lines[0].supplier == supplier then [Line(lines[0].variant, lines[0].quantity)] else [])
      + LinesFrom(lines[1..], supplier)
  }

  predicate SuppliersDistinct(subs: seq<SubOrder>) {
    forall j, k :: 0 <= j < k < |subs| ==> subs[j].supplier != subs[k].supplier
  }

  /** The buyer's order for these lines: one PENDING sub-order a supplier, with exactly that supplier's lines. */
  predicate IsOrderFor(order: Order, buyer: nat, lines: seq<LineRequest>) {
    && order.buyer == buyer && order.status == PENDING
    && SuppliersDistinct(order.subs)
    && (forall b :: b in order.subs ==>
          b.status == PENDING && b.lines != [] && b.lines == LinesFrom(lines, b.supplier))
    && forall l :: l in lines ==> exists b :: b in order.subs && b.supplier == l.supplier
  }

  lemma {:induction false} LinesFromIs(lines: seq<LineRequest>, supplier: nat)
    ensures ToLines(Filter(lines, HasKey(SupplierOf(), supplier))) == LinesFrom(lines, supplier)
  {
    if lines != [] {
      LinesFromIs(lines[1..], supplier);
      var rest := Filter(lines[1..], HasKey(SupplierOf(), supplier));
      if lines[0].supplier == supplier {
        assert ToLines([lines[0]] + rest) == [Line(lines[0].variant, lines[0].quantity)] + ToLines(rest);
      }
    }
  }

  lemma OrderIsForLines(buyer: nat, lines: seq<LineRequest>)
    ensures IsOrderFor(Order(buyer, PENDING, ToSubs(GroupBy(lines, SupplierOf()))), buyer, lines)
  {
    var groups := GroupBy(lines, SupplierOf());
    var subs := ToSubs(groups);
    GroupByPartitions(lines, SupplierOf());
    forall j, k | 0 <= j < k < |subs| ensures subs[j].supplier != subs[k].supplier {
      assert Keys(groups)[j] != Keys(groups)[k];
    }
    forall b | b in subs ensures b.status == PENDING && b.lines != [] && b.lines == LinesFrom(lines, b.supplier) {
      var j :| 0 <= j < |subs| && subs[j] == b;
      LinesFromIs(lines, groups[j].key);
    }
    forall l | l in lines ensures exists b :: b in subs && b.supplier == l.supplier {
      assert SupplierOf()(l) in Keys(groups);
      var j :| 0 <= j < |groups| && Keys(groups)[j] == l.supplier;
      assert subs[j] in subs;
    }
  }

  lemma BalancedIsMid(s: Store)
    requires Inv(s)
    ensures MidCheckout(s)
  {
    forall v: VariantId ensures Slack(s, v) >= 0 {
      assert Slack(s, v) == 0;
    }
  }

  /**
   A checkout succeeds exactly when it was accepted, has lines, each positive and of an active variant, and, variant by
   variant, all the units asked for are available or held live by the buyer's own cart, however lines repeat a variant.
   Then those cart rows are gone and every other stands; the units not covered by the hold leave the available stock,
   or its surplus returns there; and the new order is the buyer's, with exactly these lines by supplier.
   */
  lemma PlaceExactly(s: Store, buyer: nat, lines: seq<LineRequest>, accepted: bool)
    requires Inv(s)
    ensures AfterPlace(s, buyer, lines, accepted).Ok? <==>
              && lines != [] && accepted
              && (forall l :: l in lines ==> l.quantity > 0 && l.active)
              && forall v: VariantId ::
                   SumBy(lines, RequestQty(v)) <= LevelOf(s.levels, v).available + LiveHold(s, buyer, v)
    ensures AfterPlace(s, buyer, lines, accepted).Ok? ==>
              var t := AfterPlace(s, buyer, lines, accepted).value;
              && Inv(t) && t == s.(levels := t.levels, items := t.items, orders := t.orders)
              && HoldsUsed(s, t, buyer, lines) && AllDrawn(s, t, buyer, lines)
              && |t.orders| == |s.orders| + 1 && t.orders[..|s.orders|] == s.orders
              && IsOrderFor(t.orders[|s.orders|], buyer, lines)
  {
    BalancedIsMid(s);
    LinesGoThroughIff(s, buyer, lines);
    CanDrawSpelled(s, buyer, lines);
    if AfterPlace(s, buyer, lines, accepted).Ok? {
      var t := AfterPlace(s, buyer, lines, accepted).value;
      PlaceKeepsInv(s, buyer, lines, accepted, t);
      var u := AfterReserveLines(s, buyer, lines).value;
      LinesLeave(s, buyer, lines, u);
      OrderIsForLines(buyer, lines);
    }
  }

  lemma CanDrawSpelled(s: Store, buyer: nat, lines: seq<LineRequest>)
    ensures CanDraw(s, buyer, lines) <==>
            forall v: VariantId ::
              SumBy(lines, RequestQty(v)) <= LevelOf(s.levels, v).available + LiveHold(s, buyer, v)
  {
    if CanDraw(s, buyer, lines) {
      forall v: VariantId
        ensures SumBy(lines, RequestQty(v)) <= LevelOf(s.levels, v).available + LiveHold(s, buyer, v)
      {
        assert Wanted(lines, v) <= Spare(s, buyer, v);
      }
    }
  }

  // ---------------------------------------------------------------------------
  // Sub-order transitions
  // ---------------------------------------------------------------------------

  function LineUnits(lines: seq<Line>, v: VariantId): int {
    SumBy(lines, QtyOf(v))
  }

  /** Sub-order `i` of order `o` has status `st`, its order the status that follows, and no other row has changed. */
  ghost predicate SubMoved(s: Store, t: Store, o: nat, i: nat, st: Status)
    requires HasSub(s, o, i)
  {
    && t == s.(levels := t.levels, orders := t.orders)
    && |t.orders| == |s.orders|
    && (forall p: nat :: p < |s.orders| && p != o ==> t.orders[p] == s.orders[p])
    && t.orders[o].buyer == s.orders[o].buyer
    && t.orders[o].subs == s.orders[o].subs[i := s.orders[o].subs[i].(status := st)]
    && t.orders[o].status == ClosedForm(Statuses(t.orders[o].subs))
  }

  lemma WithStatusMoves(s: Store, o: nat, i: nat, st: Status, ls: Levels)
    requires Inv(s) && HasSub(s, o, i) && st != PENDING
    ensures SubMoved(s, s.(levels := ls, orders := s.orders[o := WithStatus(s.orders[o], i, st)]), o, i, st)
  {
    assert OrderOk(s.orders[o]);
    WithStatusOk(s.orders[o], i, st);
  }

  /** Confirming takes a PENDING sub-order to CONFIRMED and moves no stock. */
  lemma ConfirmExactly(s: Store, o: nat, i: nat)
    requires Inv(s) && HasSub(s, o, i)
    ensures AfterConfirmSub(s, o, i).Ok? <==> s.orders[o].subs[i].status == PENDING
    ensures AfterConfirmSub(s, o, i).Ok? ==>
              var t := AfterConfirmSub(s, o, i).value;
              Inv(t) && SubMoved(s, t, o, i, CONFIRMED) && t.levels == s.levels
  {
    ConfirmKeepsInv(s, o, i);
    WithStatusMoves(s, o, i, CONFIRMED, s.levels);
  }

  /** Delivering takes a DISPATCHED sub-order to DELIVERED and moves no stock. */
  lemma DeliverExactly(s: Store, o: nat, i: nat)
    requires Inv(s) && HasSub(s, o, i)
    ensures AfterDeliverSub(s, o, i).Ok? <==> s.orders[o].subs[i].status == DISPATCHED
    ensures AfterDeliverSub(s, o, i).Ok? ==>
              var t := AfterDeliverSub(s, o, i).value;
              Inv(t) && SubMoved(s, t, o, i, DELIVERED) && t.levels == s.levels
  {
    DeliverKeepsInv(s, o, i);
    WithStatusMoves(s, o, i, DELIVERED, s.levels);
  }

  lemma {:induction false} DispatchLinesLeave(ls: Levels, lines: seq<Line>)
    requires AfterDispatchLines(ls, lines).Ok?
    ensures var ls' := AfterDispatchLines(ls, lines).value;
            forall v: VariantId ::
              && LevelOf(ls', v).available == LevelOf(ls, v).available
              && LevelOf(ls', v).OnHand() == LevelOf(ls, v).OnHand() - LineUnits(lines, v)
    decreases |lines|
  {
    if lines != [] {
      var ls1 := AfterDispatch(ls, lines[0].variant, lines[0].quantity).value;
      CallMoves(ls, Dispatch(lines[0].variant, lines[0].quantity), ls1);
      DispatchLinesLeave(ls1, lines[1..]);
      forall v: VariantId ensures LineUnits(lines, v) == QtyOf(v)(lines[0]) + LineUnits(lines[1..], v) {
      }
    }
  }

  /** Dispatching takes an open sub-order to DISPATCHED: its lines leave the warehouse, none of them available stock. */
  lemma DispatchExactly(s: Store, o: nat, i: nat)
    requires Inv(s) && HasSub(s, o, i)
    ensures AfterDispatchSub(s, o, i).Ok? <==> s.orders[o].subs[i].status in {PENDING, CONFIRMED}
    ensures AfterDispatchSub(s, o, i).Ok? ==>
              var t := AfterDispatchSub(s, o, i).value;
              && Inv(t) && SubMoved(s, t, o, i, DISPATCHED)
              && forall v: VariantId ::
                   && LevelOf(t.levels, v).available == LevelOf(s.levels, v).available
                   && LevelOf(t.levels, v).OnHand() ==
                      LevelOf(s.levels, v).OnHand() - LineUnits(s.orders[o].subs[i].lines, v)
  {
    DispatchKeepsInv(s, o, i);
    if AfterDispatchSub(s, o, i).Ok? {
      WithStatusMoves(s, o, i, DISPATCHED, AfterDispatchSub(s, o, i).value.levels);
      DispatchLinesLeave(s.levels, s.orders[o].subs[i].lines);
    }
  }

  lemma {:induction false} ReleaseLinesKeepOnHand(ls: Levels, lines: seq<Line>)
    requires AfterReleaseLines(ls, lines).Ok?
    ensures SameOnHand(ls, AfterReleaseLines(ls, lines).value)
    decreases |lines|
  {
    if lines != [] {
      var ls1 := AfterRelease(ls, lines[0].variant, lines[0].quantity).value;
      CallMoves(ls, Release(lines[0].variant, lines[0].quantity), ls1);
      ReleaseLinesKeepOnHand(ls1, lines[1..]);
    }
  }

  lemma CancelSubKeepsOnHand(s: Store, o: nat, i: nat)
    requires HasSub(s, o, i) && AfterCancelSub(s, o, i).Ok?
    ensures SameOnHand(s.levels, AfterCancelSub(s, o, i).value.levels)
  {
    var b := s.orders[o].subs[i];
    if IsOpen(b.status) {
      ReleaseLinesKeepOnHand(s.levels, b.lines);
    }
  }

  /** Units that come back when a sub-order in this state is cancelled: those not dispatched yet. */
  function Undispatched(b: SubOrder, v: VariantId): int {
    if b.status == PENDING || b.status == CONFIRMED then LineUnits(b.lines, v) else 0
  }

  /**
   Cancelling a sub-order succeeds exactly when it is not delivered, and makes it CANCELLED. Nothing leaves the
   warehouse, and the units it had not dispatched are available again.
   */
  lemma CancelSubExactly(s: Store, o: nat, i: nat)
    requires Inv(s) && HasSub(s, o, i)
    ensures AfterCancelSub(s, o, i).Ok? <==> s.orders[o].subs[i].status != DELIVERED
    ensures AfterCancelSub(s, o, i).Ok? ==>
              var t := AfterCancelSub(s, o, i).value;
              && Inv(t) && SubMoved(s, t, o, i, CANCELLED) && SameOnHand(s.levels, t.levels)
              && forall v: VariantId ::
                   LevelOf(t.levels, v).available ==
                   LevelOf(s.levels, v).available + Undispatched(s.orders[o].subs[i], v)
  {
    CancelSubKeepsInv(s, o, i);
    if AfterCancelSub(s, o, i).Ok? {
      var (b, t) := (s.orders[o].subs[i], AfterCancelSub(s, o, i).value);
      CancelSubKeepsOnHand(s, o, i);
      CancelSubMoves(s, o, i);
      forall v: VariantId
        ensures LevelOf(t.levels, v).available == LevelOf(s.levels, v).available + Undispatched(b, v)
      {
        if b.status != CANCELLED {
          WithStatusOpen(s.orders, o, i, CANCELLED, v);
        }
        AvailableFollows(s, t, v);
      }
    }
  }

  lemma CancelSubMoves(s: Store, o: nat, i: nat)
    requires Inv(s) && HasSub(s, o, i) && AfterCancelSub(s, o, i).Ok?
    ensures SubMoved(s, AfterCancelSub(s, o, i).value, o, i, CANCELLED)
  {
    if s.orders[o].subs[i].status == CANCELLED {
      assert OrderOk(s.orders[o]);
      assert s.orders[o].subs[i := s.orders[o].subs[i]] == s.orders[o].subs;
    } else {
      WithStatusMoves(s, o, i, CANCELLED, AfterCancelSub(s, o, i).value.levels);
    }
  }

  lemma {:induction false} CancelFromKeepsOnHand(s: Store, o: nat, i: nat)
    requires o < |s.orders| && i <= |s.orders[o].subs| && AfterCancelFrom(s, o, i).Ok?
    ensures SameOnHand(s.levels, AfterCancelFrom(s, o, i).value.levels)
    decreases |s.orders[o].subs| - i
  {
    if i < |s.orders[o].subs| {
      if s.orders[o].subs[i].status == CANCELLED {
        CancelFromKeepsOnHand(s, o, i + 1);
      } else {
        CancelSubKeepsOnHand(s, o, i);
        CancelFromKeepsOnHand(AfterCancelSub(s, o, i).value, o, i + 1);
      }
    }
  }

  function UndispatchedOf(v: VariantId): SubOrder -> int {
    (b: SubOrder) => Undispatched(b, v)
  }

  /**
   Cancelling an order succeeds exactly when none of its sub-orders is delivered. Then all are CANCELLED and so is the
   order, no other order changes, nothing leaves the warehouse, and all units not dispatched yet are available again.
   */
  lemma CancelOrderExactly(s: Store, o: nat)
    requires Inv(s) && o < |s.orders|
    ensures AfterCancelOrder(s, o).Ok? <==> forall b :: b in s.orders[o].subs ==> b.status != DELIVERED
    ensures AfterCancelOrder(s, o).Ok? ==>
              var t := AfterCancelOrder(s, o).value;
              && Inv(t) && CancelledFrom(s, o, 0, t) && t.orders[o].status == CANCELLED
              && SameOnHand(s.levels, t.levels)
              && forall v: VariantId ::
                   LevelOf(t.levels, v).available ==
                   LevelOf(s.levels, v).available + SumBy(s.orders[o].subs, UndispatchedOf(v))
  {
    CancelOrderExact(s, o);
    if AfterCancelOrder(s, o).Ok? {
      var t := AfterCancelOrder(s, o).value;
      CancelFromKeepsOnHand(s, o, 0);
      forall v: VariantId
        ensures LevelOf(t.levels, v).available ==
                LevelOf(s.levels, v).available + SumBy(s.orders[o].subs, UndispatchedOf(v))
      {
        assert t.orders == s.orders[o := t.orders[o]];
        SumByUpdate(s.orders, o, t.orders[o], OrderOpen(v));
        Nothing(t.orders[o].subs, SubOpen(v));
        SumByPointwise(s.orders[o].subs, SubOpen(v), UndispatchedOf(v));
        AvailableFollows(s, t, v);
      }
    }
  }
}
