/**
 Committed effect of checkout and of the sub-order transitions (apps/orders/services.py) on the store.
 Each transition acts on the current row as one atomic step.
 */
module OrderOps {
  import opened Results
  import opened Sums
  import opened Grouping
  import opened Inventory
  import opened StoreState
  import opened CartOps

  // ---------------------------------------------------------------------------
  // Order status
  // ---------------------------------------------------------------------------

  function NotCancelled(): Status -> bool {
    (st: Status) => st != CANCELLED
  }

  predicate AllIn(sts: seq<Status>, allowed: set<Status>) {
    forall st :: st in sts ==> st in allowed
  }

  /** `_sync_order_status`: the status the order row ends up with; the last branch leaves it alone. */
  function Synced(status: Status, sts: seq<Status>): Status {
    var live := Filter(sts, NotCancelled());
    if live == [] then CANCELLED
    else if AllIn(live, {DELIVERED}) then DELIVERED
    else if AllIn(live, {DISPATCHED, DELIVERED}) then DISPATCHED
    else if AllIn(live, {CONFIRMED, DISPATCHED, DELIVERED}) then CONFIRMED
    else status
  }

  // ---------------------------------------------------------------------------
  // Checkout
  // ---------------------------------------------------------------------------

  /** A requested line, with what checkout reads off the variant. */
  datatype LineRequest = LineRequest(variant: VariantId, quantity: int, active: bool, supplier: nat)

  function SupplierOf(): LineRequest -> nat {
    (l: LineRequest) => l.supplier
  }

  function RequestQty(v: VariantId): LineRequest -> int {
    (l: LineRequest) => if l.variant == v then l.quantity else 0
  }

  function AfterReserveLine(s: Store, buyer: nat, l: LineRequest): Result<Store> {
    if l.quantity <= 0 then Err(NonPositiveQuantity)
    else if !l.active then Err(Unavailable)
    else
      var (t, taken) :- AfterConsume(s, buyer, l.variant, l.quantity);
      if taken then Ok(t)
      else
        var ls :- AfterReserve(t.levels, l.variant, l.quantity);
        Ok(t.(levels := ls))
  }

  function AfterReserveLines(s: Store, buyer: nat, lines: seq<LineRequest>): Result<Store>
    decreases |lines|
  {
    if lines == [] then Ok(s)
    else
      var t :- AfterReserveLine(s, buyer, lines[0]);
      AfterReserveLines(t, buyer, lines[1..])
  }

  function ToLine(l: LineRequest): Line {
    Line(l.variant, l.quantity)
  }

  function ToLines(items: seq<LineRequest>): (r: seq<Line>)
    ensures |r| == |items|
  {
    seq(|items|, k requires 0 <= k < |items| => ToLine(items[k]))
  }

  function ToSub(g: Group<LineRequest>): SubOrder {
    SubOrder(g.key, PENDING, ToLines(g.items))
  }

  function ToSubs(groups: seq<Group<LineRequest>>): (r: seq<SubOrder>)
    ensures |r| == |groups|
  {
    seq(|groups|, j requires 0 <= j < |groups| => ToSub(groups[j]))
  }

  /**
   `place_order`. `accepted` is whether the discount code and the courier quotes were accepted after the
   stock was reserved; a refusal there rolls every reservation back.
   */
  function AfterPlace(s: Store, buyer: nat, lines: seq<LineRequest>, accepted: bool): Result<Store> {
    if lines == [] then Err(EmptyOrder)
    else
      var t :- AfterReserveLines(s, buyer, lines);
      if !accepted then Err(CheckoutRejected)
      else
        var order := Order(buyer, PENDING, ToSubs(GroupBy(lines, SupplierOf())));
        Ok(t.(orders := t.orders + [order]))
  }

  // ---------------------------------------------------------------------------
  // Transitions
  // ---------------------------------------------------------------------------

  predicate HasSub(s: Store, o: nat, i: nat) {
    o < |s.orders| && i < |s.orders[o].subs|
  }

  function WithStatus(order: Order, i: nat, st: Status): (r: Order)
    requires i < |order.subs|
    ensures |r.subs| == |order.subs|
  {
    var subs := order.subs[i := order.subs[i].(status := st)];
    order.(subs := subs, status := Synced(order.status, Statuses(subs)))
  }

  function AfterConfirmSub(s: Store, o: nat, i: nat): Result<Store>
    requires HasSub(s, o, i)
  {
    if s.orders[o].subs[i].status != PENDING then Err(BadStatus)
    else Ok(s.(orders := s.orders[o := WithStatus(s.orders[o], i, CONFIRMED)]))
  }

  function AfterDispatchLines(ls: Levels, lines: seq<Line>): Result<Levels>
    decreases |lines|
  {
    if lines == [] then Ok(ls)
    else
      var ls1 :- AfterDispatch(ls, lines[0].variant, lines[0].quantity);
      AfterDispatchLines(ls1, lines[1..])
  }

  function AfterReleaseLines(ls: Levels, lines: seq<Line>): Result<Levels>
    decreases |lines|
  {
    if lines == [] then Ok(ls)
    else
      var ls1 :- AfterRelease(ls, lines[0].variant, lines[0].quantity);
      AfterReleaseLines(ls1, lines[1..])
  }

  function AfterDispatchSub(s: Store, o: nat, i: nat): Result<Store>
    requires HasSub(s, o, i)
  {
    var b := s.orders[o].subs[i];
    if !IsOpen(b.status) then Err(BadStatus)
    else
      var ls :- AfterDispatchLines(s.levels, b.lines);
      Ok(s.(levels := ls, orders := s.orders[o := WithStatus(s.orders[o], i, DISPATCHED)]))
  }

  function AfterDeliverSub(s: Store, o: nat, i: nat): Result<Store>
    requires HasSub(s, o, i)
  {
    if s.orders[o].subs[i].status != DISPATCHED then Err(BadStatus)
    else Ok(s.(orders := s.orders[o := WithStatus(s.orders[o], i, DELIVERED)]))
  }

  function AfterCancelSub(s: Store, o: nat, i: nat): (r: Result<Store>)
    requires HasSub(s, o, i)
    ensures r.Ok? ==> |r.value.orders| == |s.orders| && |r.value.orders[o].subs| == |s.orders[o].subs|
  {
    var b := s.orders[o].subs[i];
    if b.status == DELIVERED then Err(BadStatus)
    else if b.status == CANCELLED then Ok(s)
    else
      var ls :- if IsOpen(b.status) then AfterReleaseLines(s.levels, b.lines) else Ok(s.levels);
      Ok(s.(levels := ls, orders := s.orders[o := WithStatus(s.orders[o], i, CANCELLED)]))
  }

  /** The loop of `cancel_order` from sub-order `i` on, skipping those already cancelled. */
  function AfterCancelFrom(s: Store, o: nat, i: nat): Result<Store>
    requires o < |s.orders| && i <= |s.orders[o].subs|
    decreases |s.orders[o].subs| - i
  {
    if i == |s.orders[o].subs| then Ok(s)
    else if s.orders[o].subs[i].status == CANCELLED then AfterCancelFrom(s, o, i + 1)
    else
      var t :- AfterCancelSub(s, o, i);
      AfterCancelFrom(t, o, i + 1)
  }

  function AfterCancelOrder(s: Store, o: nat): Result<Store>
    requires o < |s.orders|
  {
    if s.orders[o].status == DELIVERED then Err(BadStatus) else AfterCancelFrom(s, o, 0)
  }
}
