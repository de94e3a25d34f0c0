/**
 The tables that hold stock between them: stock levels, carts with their reservations, and orders.
 Defines the reservation balance that every service call must keep.
 */
module StoreState {
  import opened Results
  import opened Sums
  import opened Inventory

  // ---------------------------------------------------------------------------
  // Carts (apps/marketplace/models.py)
  // ---------------------------------------------------------------------------

  datatype Owner = User(id: nat) | Session(key: nat)

  /** A CartReservation row; it hangs off one cart item and dies with it. */
  datatype Hold = Hold(quantity: nat, expiresAt: int)

  datatype CartItem = CartItem(id: nat, owner: Owner, variant: VariantId, quantity: nat, hold: Option<Hold>)

  const RESERVATION_MINUTES: nat := 30

  // ---------------------------------------------------------------------------
  // Orders (apps/orders/models.py)
  // ---------------------------------------------------------------------------

  datatype Status = PENDING | CONFIRMED | DISPATCHED | DELIVERED | CANCELLED

  datatype Line = Line(variant: VariantId, quantity: int)

  datatype SubOrder = SubOrder(supplier: nat, status: Status, lines: seq<Line>)

  datatype Order = Order(buyer: nat, status: Status, subs: seq<SubOrder>)

  datatype Store = Store(
    levels: Levels, carts: set<Owner>, items: seq<CartItem>, orders: seq<Order>, now: int, nextId: nat)

  // ---------------------------------------------------------------------------
  // Who holds what
  // ---------------------------------------------------------------------------

  function HoldOf(v: VariantId): CartItem -> int {
    (i: CartItem) => if i.variant == v && i.hold.Some? then i.hold.value.quantity else 0
  }

  function QtyOf(v: VariantId): Line -> int {
    (l: Line) => if l.variant == v then l.quantity else 0
  }

  predicate IsOpen(st: Status) {
    st == PENDING || st == CONFIRMED
  }

  function SubOpen(v: VariantId): SubOrder -> int {
    (b: SubOrder) => if IsOpen(b.status) then SumBy(b.lines, QtyOf(v)) else 0
  }

  function OrderOpen(v: VariantId): Order -> int {
    (o: Order) => SumBy(o.subs, SubOpen(v))
  }

  /** Units of `v` held by existing cart reservations, expired or not. */
  function Held(items: seq<CartItem>, v: VariantId): int {
    SumBy(items, HoldOf(v))
  }

  /** Units of `v` in order lines of PENDING and CONFIRMED sub-orders. */
  function Open(orders: seq<Order>, v: VariantId): int {
    SumBy(orders, OrderOpen(v))
  }

  /** Reserved units nobody accounts for; zero in every reachable state. */
  function Slack(s: Store, v: VariantId): int {
    LevelOf(s.levels, v).reserved - Held(s.items, v) - Open(s.orders, v)
  }

  // ---------------------------------------------------------------------------
  // Order status
  // ---------------------------------------------------------------------------

  /** How far along a live sub-order is. */
  function Progress(st: Status): nat {
    match st
    case PENDING => 0
    case CONFIRMED => 1
    case DISPATCHED => 2
    case DELIVERED => 3
    case CANCELLED => 4
  }

  /** The less advanced of two statuses; a cancelled one never counts against a live one. */
  function Lesser(a: Status, b: Status): Status {
    if Progress(a) <= Progress(b) then a else b
  }

  /** Reference definition: the least advanced status that is not cancelled, else CANCELLED. */
  function ClosedForm(sts: seq<Status>): Status {
    if sts == [] then CANCELLED else Lesser(sts[0], ClosedForm(sts[1..]))
  }

  function Statuses(subs: seq<SubOrder>): (r: seq<Status>)
    ensures |r| == |subs| && forall k :: 0 <= k < |subs| ==> r[k] == subs[k].status
  {
    seq(|subs|, k requires 0 <= k < |subs| => subs[k].status)
  }

  // ---------------------------------------------------------------------------
  // The invariant
  // ---------------------------------------------------------------------------

  predicate ItemOk(i: CartItem, carts: set<Owner>, nextId: nat) {
    && i.hold.Some? && i.hold.value.quantity == i.quantity > 0
    && i.owner in carts
    && i.id < nextId
  }

  /** Every cart item has a reservation of its own quantity; ids and (cart, variant) pairs are unique. */
  ghost predicate ItemsOk(items: seq<CartItem>, carts: set<Owner>, nextId: nat) {
    && (forall i :: i in items ==> ItemOk(i, carts, nextId))
    && (forall j, k :: 0 <= j < k < |items| ==> Apart(items[j], items[k]))
  }

  predicate Apart(a: CartItem, b: CartItem) {
    a.id != b.id && (a.owner != b.owner || a.variant != b.variant)
  }

  predicate LinesOk(lines: seq<Line>) {
    forall l :: l in lines ==> l.quantity > 0
  }

  predicate OrderOk(o: Order) {
    && o.subs != []
    && o.status == ClosedForm(Statuses(o.subs))
    && forall b :: b in o.subs ==> LinesOk(b.lines)
  }

  predicate OrdersOk(orders: seq<Order>) {
    forall o :: o in orders ==> OrderOk(o)
  }

  ghost predicate Balanced(s: Store) {
    forall v: VariantId :: Slack(s, v) == 0
  }

  ghost predicate Inv(s: Store) {
    && Balanced(s)
    && ItemsOk(s.items, s.carts, s.nextId)
    && OrdersOk(s.orders)
    && AllExplained(s.levels)
  }

  // ---------------------------------------------------------------------------
  // Sums are non-negative, so each part is covered by what is reserved
  // ---------------------------------------------------------------------------

  lemma LinesNonNegative(lines: seq<Line>, v: VariantId)
    requires LinesOk(lines)
    ensures SumBy(lines, QtyOf(v)) >= 0
  {
    SumByNonNegative(lines, QtyOf(v));
  }

  lemma SubsNonNegative(subs: seq<SubOrder>, v: VariantId)
    requires forall b :: b in subs ==> LinesOk(b.lines)
    ensures SumBy(subs, SubOpen(v)) >= 0
    ensures forall b :: b in subs ==> 0 <= SubOpen(v)(b) <= SumBy(subs, SubOpen(v))
  {
    forall b | b in subs ensures SubOpen(v)(b) >= 0 {
      LinesNonNegative(b.lines, v);
    }
    SumByNonNegative(subs, SubOpen(v));
    forall b | b in subs ensures SubOpen(v)(b) <= SumBy(subs, SubOpen(v)) {
      var k :| 0 <= k < |subs| && subs[k] == b;
      SumByMember(subs, k, SubOpen(v));
    }
  }

  lemma OrdersNonNegative(orders: seq<Order>, v: VariantId)
    requires OrdersOk(orders)
    ensures Open(orders, v) >= 0
    ensures forall o :: o in orders ==> 0 <= OrderOpen(v)(o) <= Open(orders, v)
  {
    forall o | o in orders ensures OrderOpen(v)(o) >= 0 {
      SubsNonNegative(o.subs, v);
    }
    SumByNonNegative(orders, OrderOpen(v));
    forall o | o in orders ensures OrderOpen(v)(o) <= Open(orders, v) {
      var k :| 0 <= k < |orders| && orders[k] == o;
      SumByMember(orders, k, OrderOpen(v));
    }
  }

  /** A cart hold is always covered by the reserved column. */
  lemma HoldCovered(s: Store, k: nat)
    requires Inv(s) && k < |s.items|
    ensures s.items[k].hold.Some? && s.items[k].hold.value.quantity <= LevelOf(s.levels, s.items[k].variant).reserved
  {
    var v := s.items[k].variant;
    assert ItemOk(s.items[k], s.carts, s.nextId);
    SumByMember(s.items, k, HoldOf(v));
    OrdersNonNegative(s.orders, v);
    assert Slack(s, v) == 0;
  }

  /** So are all the lines of an open sub-order together, even when they repeat a variant. */
  lemma LinesCovered(s: Store, o: nat, i: nat, v: VariantId)
    requires Inv(s) && o < |s.orders| && i < |s.orders[o].subs| && IsOpen(s.orders[o].subs[i].status)
    ensures SumBy(s.orders[o].subs[i].lines, QtyOf(v)) <= LevelOf(s.levels, v).reserved
  {
    OrdersNonNegative(s.orders, v);
    assert OrderOk(s.orders[o]);
    SubsNonNegative(s.orders[o].subs, v);
    assert s.orders[o] in s.orders && s.orders[o].subs[i] in s.orders[o].subs;
    assert SubOpen(v)(s.orders[o].subs[i]) <= OrderOpen(v)(s.orders[o]) <= Open(s.orders, v);
    SumByNonNegative(s.items, HoldOf(v));
    assert Slack(s, v) == 0;
  }
}
