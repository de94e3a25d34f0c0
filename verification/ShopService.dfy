/**
 The cart, sweep and order services as they run: rows edited in place, loops over lines and items, and
 `transaction.atomic` as a savepoint restored when a call raises. Every method is proved to commit
 exactly its specification in CartOps and OrderOps, for which the balance is proved.
 */
module ShopService {
  import opened Results
  import opened Sums
  import opened Grouping
  import opened Inventory
  import opened StoreState
  import opened CartOps
  import opened OrderOps

  /** The call committed its specified effect, or raised and left the tables as they were. */
  ghost predicate Committed(spec: Result<Store>, before: Store, after: Store, r: Result<()>) {
    match spec
    case Ok(t) => after == t && r == Ok(())
    case Err(e) => after == before && r == Err(e)
  }

  class Shop {
    const stock: Inventory
    var carts: set<Owner>
    var items: seq<CartItem>
    var orders: seq<Order>
    var now: int
    var nextId: nat

    constructor (now: int)
      ensures fresh(stock) && State() == Store(map[], {}, [], [], now, 0)
    {
      stock := new Inventory();
      carts, items, orders, nextId := {}, [], [], 0;
      this.now := now;
    }

    function State(): Store
      reads this, stock
    {
      Store(stock.levels, carts, items, orders, now, nextId)
    }

    /** Roll back to a savepoint. */
    method Restore(s: Store)
      modifies this, stock
      ensures State() == s
    {
      stock.levels := s.levels;
      carts, items, orders, now, nextId := s.carts, s.items, s.orders, s.now, s.nextId;
    }

    // -------------------------------------------------------------------------
    // Carts
    // -------------------------------------------------------------------------

    method AddToCart(owner: Owner, v: VariantId, active: bool, q: int) returns (r: Result<()>)
      modifies this, stock
      ensures Committed(AfterAdd(old(State()), owner, v, active, q), old(State()), State(), r)
    {
      if q <= 0 {
        return Err(NonPositiveQuantity);
      }
      if !active {
        return Err(NotFound);
      }
      var saved := State();
      carts := carts + {owner};
      var k;
      match FindItem(items, owner, v) {
        case None =>
          k := |items|;
          items := items + [CartItem(nextId, owner, v, q, None)];
          nextId := nextId + 1;
        case Some(found) =>
          k := found;
          items := items[k := items[k].(quantity := items[k].quantity + q)];
      }
      r := stock.ReserveStock(v, q);
      if r.Err? {
        Restore(saved);
        return;
      }
      items := items[k := items[k].(hold := Some(Hold(items[k].quantity, now + RESERVATION_MINUTES)))];
    }

    method UpdateCartItem(owner: Owner, id: nat, q: int) returns (r: Result<()>)
      modifies this, stock
      ensures Committed(AfterUpdate(old(State()), owner, id, q), old(State()), State(), r)
    {
      if q <= 0 {
        return Err(NonPositiveQuantity);
      }
      var found := FindId(items, id);
      if found.None? || items[found.value].owner != owner {
        return Err(NotFound);
      }
      var k := found.value;
      var delta := q - items[k].quantity;
      r := Ok(());
      if delta > 0 {
        r := stock.ReserveStock(items[k].variant, delta);
      } else if delta < 0 {
        r := stock.ReleaseReservation(items[k].variant, -delta);
      }
      if r.Err? {
        return;
      }
      items := items[k := items[k].(quantity := q)];
      items := items[k := items[k].(hold := Some(Hold(q, now + RESERVATION_MINUTES)))];
    }

    /** Release a row's hold, when it has one, and delete the row. */
    method DropItem(k: nat) returns (r: Result<()>)
      requires k < |items|
      modifies this, stock
      ensures Committed(AfterDrop(old(State()), k), old(State()), State(), r)
    {
      r := Ok(());
      if items[k].hold.Some? {
        r := stock.ReleaseReservation(items[k].variant, items[k].hold.value.quantity);
        if r.Err? {
          return;
        }
      }
      items := RemoveAt(items, k);
    }

    method RemoveFromCart(owner: Owner, id: nat) returns (r: Result<()>)
      modifies this, stock
      ensures Committed(AfterRemove(old(State()), owner, id), old(State()), State(), r)
    {
      var found := FindId(items, id);
      if found.None? || items[found.value].owner != owner {
        return Err(NotFound);
      }
      r := DropItem(found.value);
    }

    method ClearCart(owner: Owner) returns (r: Result<()>)
      modifies this, stock
      ensures Committed(AfterClear(old(State()), owner), old(State()), State(), r)
    {
      var saved := State();
      var mine := Filter(items, OwnedBy(owner));
      for j := 0 to |mine|
        invariant AfterReleaseAll(saved.levels, mine) == AfterReleaseAll(stock.levels, mine[j..])
        invariant State() == saved.(levels := stock.levels)
      {
        assert mine[j..][1..] == mine[j + 1..];
        if mine[j].hold.Some? {
          r := stock.ReleaseReservation(mine[j].variant, mine[j].hold.value.quantity);
          if r.Err? {
            Restore(saved);
            return;
          }
        }
      }
      items := Filter(items, NotOwnedBy(owner));
      r := Ok(());
    }

    /** One row of the guest cart. */
    method MergeItem(id: nat, target: Owner, expiry: int)
      modifies this`items
      ensures items == MergeOne(old(items), id, target, expiry)
    {
      var g := FindId(items, id);
      if g.None? {
        return;
      }
      var row := items[g.value];
      var e := FindItem(items, target, row.variant);
      if e.Some? {
        var q := items[e.value].quantity + row.quantity;
        items := items[e.value := items[e.value].(quantity := q)];
        items := items[e.value := items[e.value].(hold := Some(Hold(q, expiry)))];
        items := RemoveAt(items, g.value);
      } else {
        row := row.(owner := target);
        if row.hold.Some? {
          row := row.(hold := Some(row.hold.value.(expiresAt := expiry)));
        }
        items := items[g.value := row];
      }
    }

    /** The loop over the guest cart's rows. */
    method MergeItems(ids: seq<nat>, target: Owner, expiry: int)
      modifies this`items
      ensures items == MergeAll(old(items), ids, target, expiry)
    {
      ghost var before := items;
      for j := 0 to |ids|
        invariant MergeAll(items, ids[j..], target, expiry) == MergeAll(before, ids, target, expiry)
      {
        assert ids[j..][1..] == ids[j + 1..];
        MergeItem(ids[j], target, expiry);
      }
    }

    method MergeGuestCart(key: nat, user: nat)
      modifies this
      ensures State() == AfterMerge(old(State()), key, user)
    {
      var (guest, target) := (Session(key), User(user));
      if guest !in carts {
        return;
      }
      ghost var before := State();
      var expiry := now + RESERVATION_MINUTES;
      assert expiry == Expiry(before);
      var ids := Ids(Filter(items, OwnedBy(guest)));
      MergeItems(ids, target, expiry);
      items := Filter(items, NotOwnedBy(guest));
      carts := carts + {target} - {guest};
    }

    // -------------------------------------------------------------------------
    // The expiry sweep
    // -------------------------------------------------------------------------

    method SweepItem(id: nat) returns (r: Result<()>)
      modifies this, stock
      ensures Committed(AfterSweepItem(old(State()), id), old(State()), State(), r)
    {
      var found := FindId(items, id);
      if found.None? {
        return Err(NotFound);
      }
      if !Expired(items[found.value], now) {
        return Ok(());
      }
      r := DropItem(found.value);
    }

    /** The whole task with nothing in between: snapshot the ids, then one transaction each. */
    method ReleaseExpired() returns (released: nat)
      modifies this, stock
      ensures (State(), released) == AfterSweep(old(State()), ExpiredIds(old(State())))
    {
      var ids := ExpiredIds(State());
      released := 0;
      for j := 0 to |ids|
        invariant var (t, n) := AfterSweep(State(), ids[j..]);
                  (t, released + n) == AfterSweep(old(State()), ids)
      {
        assert ids[j..][1..] == ids[j + 1..];
        var found := FindId(items, ids[j]);
        var expired := found.Some? && Expired(items[found.value], now);
        var r := SweepItem(ids[j]);
        if r.Ok? && expired {
          released := released + 1;
        }
      }
    }

    // -------------------------------------------------------------------------
    // Checkout
    // -------------------------------------------------------------------------

    method ConsumeCartReservation(buyer: nat, v: VariantId, q: int) returns (r: Result<bool>)
      modifies this, stock
      ensures match AfterConsume(old(State()), buyer, v, q)
              case Ok(t) => State() == t.0 && r == Ok(t.1)
              case Err(e) => State() == old(State()) && r == Err(e)
    {
      var found := FindItem(items, User(buyer), v);
      if found.None? {
        return Ok(false);
      }
      var k := found.value;
      if items[k].hold.None? || items[k].hold.value.expiresAt <= now {
        return Ok(false);
      }
      var held := items[k].hold.value.quantity;
      if held < q {
        var released := stock.ReleaseReservation(v, held);
        if released.Err? {
          return Err(released.error);
        }
        items := RemoveAt(items, k);
        return Ok(false);
      }
      if held > q {
        var released := stock.ReleaseReservation(v, held - q);
        if released.Err? {
          return Err(released.error);
        }
      }
      items := RemoveAt(items, k);
      return Ok(true);
    }

    /** One line of the checkout loop. On an exception the caller restores the savepoint. */
    method ReserveLine(buyer: nat, l: LineRequest) returns (r: Result<()>)
      modifies this, stock
      ensures match AfterReserveLine(old(State()), buyer, l)
              case Ok(t) => State() == t && r == Ok(())
              case Err(e) => r == Err(e)
    {
      if l.quantity <= 0 {
        return Err(NonPositiveQuantity);
      }
      if !l.active {
        return Err(Unavailable);
      }
      var consumed := ConsumeCartReservation(buyer, l.variant, l.quantity);
      if consumed.Err? {
        return Err(consumed.error);
      }
      if !consumed.value {
        r := stock.ReserveStock(l.variant, l.quantity);
        return;
      }
      return Ok(());
    }

    method PlaceOrder(buyer: nat, lines: seq<LineRequest>, accepted: bool) returns (r: Result<()>)
      modifies this, stock
      ensures Committed(AfterPlace(old(State()), buyer, lines, accepted), old(State()), State(), r)
    {
      if lines == [] {
        return Err(EmptyOrder);
      }
      var saved := State();
      var groups: seq<Group<LineRequest>> := [];
      for j := 0 to |lines|
        invariant AfterReserveLines(saved, buyer, lines) == AfterReserveLines(State(), buyer, lines[j..])
        invariant groups == GroupBy(lines[..j], SupplierOf())
      {
        assert lines[j..][1..] == lines[j + 1..];
        assert lines[..j + 1][..j] == lines[..j];
        r := ReserveLine(buyer, lines[j]);
        if r.Err? {
          Restore(saved);
          return;
        }
        groups := Append(groups, lines[j].supplier, lines[j]);
      }
      assert lines[..|lines|] == lines;
      if !accepted {
        Restore(saved);
        return Err(CheckoutRejected);
      }
      var subs := CreateSubOrders(groups);
      orders := orders + [Order(buyer, PENDING, subs)];
      r := Ok(());
    }

    method CreateSubOrders(groups: seq<Group<LineRequest>>) returns (subs: seq<SubOrder>)
      ensures subs == ToSubs(groups)
    {
      subs := [];
      for j := 0 to |groups|
        invariant |subs| == j
        invariant forall p :: 0 <= p < j ==> subs[p] == ToSub(groups[p])
      {
        var rows: seq<Line> := [];
        for k := 0 to |groups[j].items|
          invariant |rows| == k
          invariant forall p :: 0 <= p < k ==> rows[p] == ToLine(groups[j].items[p])
        {
          rows := rows + [Line(groups[j].items[k].variant, groups[j].items[k].quantity)];
        }
        assert rows == ToLines(groups[j].items);
        subs := subs + [SubOrder(groups[j].key, PENDING, rows)];
      }
    }

    // -------------------------------------------------------------------------
    // Sub-order transitions
    // -------------------------------------------------------------------------

    /** Write the sub-order's status, then re-derive the order's own. */
    method SetStatus(o: nat, i: nat, st: Status)
      requires o < |orders| && i < |orders[o].subs|
      modifies this
      ensures State() == old(State()).(orders := old(orders)[o := WithStatus(old(orders)[o], i, st)])
    {
      var order := orders[o];
      order := order.(subs := order.subs[i := order.subs[i].(status := st)]);
      order := order.(status := Synced(order.status, Statuses(order.subs)));
      orders := orders[o := order];
    }

    method ConfirmSubOrder(o: nat, i: nat) returns (r: Result<()>)
      requires HasSub(State(), o, i)
      modifies this
      ensures Committed(AfterConfirmSub(old(State()), o, i), old(State()), State(), r)
    {
      if orders[o].subs[i].status != PENDING {
        return Err(BadStatus);
      }
      SetStatus(o, i, CONFIRMED);
      return Ok(());
    }

    method DispatchSubOrder(o: nat, i: nat) returns (r: Result<()>)
      requires HasSub(State(), o, i)
      modifies this, stock
      ensures Committed(AfterDispatchSub(old(State()), o, i), old(State()), State(), r)
    {
      var b := orders[o].subs[i];
      if b.status != PENDING && b.status != CONFIRMED {
        return Err(BadStatus);
      }
      var saved := State();
      for j := 0 to |b.lines|
        invariant AfterDispatchLines(saved.levels, b.lines) == AfterDispatchLines(stock.levels, b.lines[j..])
        invariant State() == saved.(levels := stock.levels)
      {
        assert b.lines[j..][1..] == b.lines[j + 1..];
        r := stock.DispatchStock(b.lines[j].variant, b.lines[j].quantity);
        if r.Err? {
          Restore(saved);
          return;
        }
      }
      SetStatus(o, i, DISPATCHED);
      r := Ok(());
    }

    method DeliverSubOrder(o: nat, i: nat) returns (r: Result<()>)
      requires HasSub(State(), o, i)
      modifies this
      ensures Committed(AfterDeliverSub(old(State()), o, i), old(State()), State(), r)
    {
      if orders[o].subs[i].status != DISPATCHED {
        return Err(BadStatus);
      }
      SetStatus(o, i, DELIVERED);
      return Ok(());
    }

    method CancelSubOrder(o: nat, i: nat) returns (r: Result<()>)
      requires HasSub(State(), o, i)
      modifies this, stock
      ensures Committed(AfterCancelSub(old(State()), o, i), old(State()), State(), r)
    {
      var b := orders[o].subs[i];
      if b.status == DELIVERED {
        return Err(BadStatus);
      }
      if b.status == CANCELLED {
        return Ok(());
      }
      var saved := State();
      if b.status == PENDING || b.status == CONFIRMED {
        for j := 0 to |b.lines|
          invariant AfterReleaseLines(saved.levels, b.lines) == AfterReleaseLines(stock.levels, b.lines[j..])
          invariant State() == saved.(levels := stock.levels)
        {
          assert b.lines[j..][1..] == b.lines[j + 1..];
          r := stock.ReleaseReservation(b.lines[j].variant, b.lines[j].quantity);
          if r.Err? {
            Restore(saved);
            return;
          }
        }
      }
      SetStatus(o, i, CANCELLED);
      r := Ok(());
    }

    method CancelOrder(o: nat) returns (r: Result<()>)
      requires o < |orders|
      modifies this, stock
      ensures Committed(AfterCancelOrder(old(State()), o), old(State()), State(), r)
    {
      if orders[o].status == DELIVERED {
        return Err(BadStatus);
      }
      var saved := State();
      var n := |orders[o].subs|;
      for i := 0 to n
        invariant o < |orders| && |orders[o].subs| == n
        invariant AfterCancelFrom(saved, o, 0) == AfterCancelFrom(State(), o, i)
      {
        if orders[o].subs[i].status != CANCELLED {
          r := CancelSubOrder(o, i);
          if r.Err? {
            Restore(saved);
            return;
          }
        }
      }
      r := Ok(());
    }
  }
}
