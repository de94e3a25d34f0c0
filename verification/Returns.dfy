/** Refund amounts and returnable units (apps/orders/services.py, apps/orders/models.py). */
module Returns {
  import opened Results
  import opened Sums
  import opened Rounding
  import opened ReturnStates

  // ---------------------------------------------------------------------------
  // Refund amounts
  // ---------------------------------------------------------------------------

  /** The priced snapshot of a sub-order; `subtotal` is goods - discount + shipping. */
  datatype SubOrder = SubOrder(goods: nat, discount: nat, subtotal: nat)

  /** A returned quantity of a line, at the line's own unit price. */
  datatype ReturnedItem = ReturnedItem(unitPrice: nat, quantity: nat)

  function Gross(): ReturnedItem -> int {
    (r: ReturnedItem) => r.unitPrice * r.quantity
  }

  function DiscountShare(sub: SubOrder, gross: int): int {
    if sub.discount > 0 && sub.goods > 0 then HalfEven(sub.discount * gross, sub.goods) else 0
  }

  /** `_return_refund_amount`. */
  function RefundAmount(sub: SubOrder, items: seq<ReturnedItem>): int {
    var gross := SumBy(items, Gross());
    if items == [] || gross >= sub.goods then sub.subtotal else gross - DiscountShare(sub, gross)
  }

  predicate IsPartial(sub: SubOrder, items: seq<ReturnedItem>) {
    items != [] && SumBy(items, Gross()) < sub.goods
  }

  lemma GrossNonNegative(items: seq<ReturnedItem>)
    ensures SumBy(items, Gross()) >= 0
  {
    SumByNonNegative(items, Gross());
  }

  /** Complementing a rounded share rounds the complement. */
  lemma NearestComplement(goods: int, d: int, g: int, share: int)
    requires goods > 0 && Nearest(share, d * g, goods)
    ensures Nearest(g - share, (goods - d) * g, goods)
  {
    assert (goods - d) * g == goods * g - d * g;
    assert goods * (g - share) == goods * g - goods * share;
  }

  lemma ShareWithin(goods: int, d: int, g: int, share: int)
    requires 0 <= d <= goods && 0 < goods && 0 <= g && Nearest(share, d * g, goods)
    ensures 0 <= share <= g
  {
    MulMono(g, 0, d);
    MulMono(g, d, goods);
    assert g * d == d * g;
    NearestBetween(share, d * g, goods, 0, g);
  }

  /** A return of the whole sub-order, by listing nothing or goods worth as much, refunds its whole total. */
  lemma WholeRefund(sub: SubOrder, items: seq<ReturnedItem>)
    requires items == [] || SumBy(items, Gross()) >= sub.goods
    ensures RefundAmount(sub, items) == sub.subtotal
  {
  }

  /**
   A partial return: never negative, and nearest to the units' exact discounted value, the discount taken off being the
   even one of two that are as near.
   */
  lemma PartialRefund(sub: SubOrder, items: seq<ReturnedItem>)
    requires sub.discount <= sub.goods && IsPartial(sub, items)
    ensures var (gross, refund) := (SumBy(items, Gross()), RefundAmount(sub, items));
            && 0 <= refund <= gross
            && Nearest(refund, (sub.goods - sub.discount) * gross, sub.goods)
            && NearestEven(gross - refund, sub.discount * gross, sub.goods)
  {
    GrossNonNegative(items);
    var g := SumBy(items, Gross());
    var share := DiscountShare(sub, g);
    HalfEvenIs(sub.discount * g, sub.goods);
    if sub.discount == 0 {
      assert sub.discount * g == 0 && sub.goods * 0 == 0;
    }
    assert NearestEven(share, sub.discount * g, sub.goods);
    ShareWithin(sub.goods, sub.discount, g, share);
    NearestComplement(sub.goods, sub.discount, g, share);
  }

  /** Rounding errors add up: at most half a penny a return. */
  predicate WithinHalfEach(goods: int, e: int, refunds: int, gross: int, n: int) {
    -(goods * n) <= 2 * (goods * refunds - e * gross) <= goods * n
  }

  lemma ErrorsAdd(goods: int, e: int, r: int, g: int, refunds: int, gross: int, n: int)
    requires goods > 0 && Nearest(r, e * g, goods) && WithinHalfEach(goods, e, refunds, gross, n)
    ensures WithinHalfEach(goods, e, r + refunds, g + gross, n + 1)
  {
    assert goods * (r + refunds) == goods * r + goods * refunds;
    assert e * (g + gross) == e * g + e * gross;
    assert goods * (n + 1) == goods * n + goods;
  }

  function RefundOf(sub: SubOrder): seq<ReturnedItem> -> int {
    (items: seq<ReturnedItem>) => RefundAmount(sub, items)
  }

  function GrossOf(): seq<ReturnedItem> -> int {
    (items: seq<ReturnedItem>) => SumBy(items, Gross())
  }

  /**
   Any k partial returns of a sub-order: refunds are non-negative and together within k/2 pence of the exact
   pro-rata discounted value of everything returned.
   */
  lemma {:induction false} PartialRefundsNearExact(sub: SubOrder, requests: seq<seq<ReturnedItem>>)
    requires sub.discount <= sub.goods && forall items :: items in requests ==> IsPartial(sub, items)
    ensures var (refunds, gross) := (SumBy(requests, RefundOf(sub)), SumBy(requests, GrossOf()));
            && 0 <= refunds <= gross
            && WithinHalfEach(sub.goods, sub.goods - sub.discount, refunds, gross, |requests|)
  {
    if requests == [] {
      assert sub.goods * 0 == 0 && (sub.goods - sub.discount) * 0 == 0;
    } else {
      var (items, rest) := (requests[0], requests[1..]);
      assert items in requests;
      PartialRefund(sub, items);
      PartialRefundsNearExact(sub, rest);
      ErrorsAdd(sub.goods, sub.goods - sub.discount, RefundAmount(sub, items), SumBy(items, Gross()),
                SumBy(rest, RefundOf(sub)), SumBy(rest, GrossOf()), |rest|);
    }
  }

  lemma ErrorsCap(goods: int, e: int, refunds: int, gross: int, n: int)
    requires goods > 0 && e >= 0 && gross <= goods && WithinHalfEach(goods, e, refunds, gross, n)
    ensures 2 * refunds <= 2 * e + n
  {
    MulMono(e, gross, goods);
    assert goods * (2 * e + n) == 2 * (e * goods) + goods * n;
    assert goods * (2 * refunds) == 2 * (goods * refunds);
    if 2 * refunds > 2 * e + n {
      StrictMono(goods, 2 * e + n, 2 * refunds);
    }
  }

  /** Returns of disjoint units: k partial refunds exceed the discounted goods by at most k/2 pence. */
  lemma PartialRefundsBounded(sub: SubOrder, requests: seq<seq<ReturnedItem>>)
    requires 0 < sub.goods && sub.discount <= sub.goods && forall items :: items in requests ==> IsPartial(sub, items)
    requires SumBy(requests, GrossOf()) <= sub.goods
    ensures 2 * SumBy(requests, RefundOf(sub)) <= 2 * (sub.goods - sub.discount) + |requests|
  {
    PartialRefundsNearExact(sub, requests);
    var (refunds, gross) := (SumBy(requests, RefundOf(sub)), SumBy(requests, GrossOf()));
    ErrorsCap(sub.goods, sub.goods - sub.discount, refunds, gross, |requests|);
  }

  lemma StrictMono(d: int, a: int, b: int)
    requires d > 0 && a < b
    ensures d * a < d * b
  {
  }

  // ---------------------------------------------------------------------------
  // Returnable units
  // ---------------------------------------------------------------------------

  datatype ReturnLine = ReturnLine(item: nat, quantity: nat)

  datatype Return = Return(status: ReturnStatus, lines: seq<ReturnLine>)

  /** A line as submitted. */
  datatype Selection = Selection(item: nat, quantity: int)

  function UnitsOf(item: nat): ReturnLine -> int {
    (l: ReturnLine) => if l.item == item then l.quantity else 0
  }

  function ReturnUnits(item: nat): Return -> int {
    (r: Return) => if r.status == REJECTED then 0 else SumBy(r.lines, UnitsOf(item))
  }

  /** `returned_quantity`: units of the item in returns that were not rejected. */
  function Returned(history: seq<Return>, item: nat): int {
    SumBy(history, ReturnUnits(item))
  }

  function SelectedUnits(item: nat): Selection -> int {
    (l: Selection) => if l.item == item then l.quantity else 0
  }

  ghost predicate WithinOrdered(history: seq<Return>, ordered: nat -> nat) {
    forall item: nat :: Returned(history, item) <= ordered(item)
  }

  /** The admin path checks each line against the rows already created for the earlier ones. */
  function AdminLines(history: seq<Return>, ordered: nat -> nat, lines: seq<ReturnLine>, rest: seq<Selection>)
    : Result<seq<ReturnLine>>
    decreases |rest|
  {
    if rest == [] then Ok(lines)
    else
      var l := rest[0];
      if l.quantity <= 0 then Err(NonPositiveQuantity)
      else if l.quantity > ordered(l.item) - Returned(history + [Return(APPROVED, lines)], l.item) then Err(Unavailable)
      else AdminLines(history, ordered, lines + [ReturnLine(l.item, l.quantity)], rest[1..])
  }

  /** The buyer path checks every line against the state before the request. */
  predicate RequestAccepted(history: seq<Return>, ordered: nat -> nat, lines: seq<Selection>) {
    forall l :: l in lines ==> 0 < l.quantity <= ordered(l.item) - Returned(history, l.item)
  }

  function ToLines(lines: seq<Selection>): (r: seq<ReturnLine>)
    ensures |r| == |lines|
  {
    seq(|lines|, k requires 0 <= k < |lines| =>
      ReturnLine(lines[k].item, if lines[k].quantity > 0 then lines[k].quantity else 0))
  }

  function AfterRequest(history: seq<Return>, lines: seq<Selection>): seq<Return> {
    history + [Return(REQUESTED, ToLines(lines))]
  }

  lemma ReturnedSnoc(history: seq<Return>, r: Return, item: nat)
    ensures Returned(history + [r], item) == Returned(history, item) + ReturnUnits(item)(r)
  {
    SumBySnoc(history, r, ReturnUnits(item));
  }

  method CreateAdminReturn(history: seq<Return>, ordered: nat -> nat, selections: seq<Selection>)
    returns (r: Result<seq<Return>>)
    ensures match AdminLines(history, ordered, [], selections)
            case Ok(lines) => r == Ok(history + [Return(APPROVED, lines)])
            case Err(e) => r == Err(e)
  {
    var lines: seq<ReturnLine> := [];
    for k := 0 to |selections|
      invariant AdminLines(history, ordered, lines, selections[k..]) == AdminLines(history, ordered, [], selections)
    {
      assert selections[k..][1..] == selections[k + 1..];
      var l := selections[k];
      if l.quantity <= 0 {
        return Err(NonPositiveQuantity);
      }
      var returned := Returned(history + [Return(APPROVED, lines)], l.item);
      if l.quantity > ordered(l.item) - returned {
        return Err(Unavailable);
      }
      lines := lines + [ReturnLine(l.item, l.quantity)];
    }
    r := Ok(history + [Return(APPROVED, lines)]);
  }

  /** However often a selection repeats a line, an admin refund never covers more units than were ordered. */
  lemma {:induction false} AdminStaysWithinOrdered(history: seq<Return>, ordered: nat -> nat, lines: seq<ReturnLine>,
                                                   rest: seq<Selection>)
    requires WithinOrdered(history + [Return(APPROVED, lines)], ordered)
    requires AdminLines(history, ordered, lines, rest).Ok?
    ensures WithinOrdered(history + [Return(APPROVED, AdminLines(history, ordered, lines, rest).value)], ordered)
    decreases |rest|
  {
    if rest != [] {
      var l := rest[0];
      var line := ReturnLine(l.item, l.quantity);
      forall item: nat ensures Returned(history + [Return(APPROVED, lines + [line])], item) <= ordered(item) {
        ReturnedSnoc(history, Return(APPROVED, lines), item);
        ReturnedSnoc(history, Return(APPROVED, lines + [line]), item);
        SumBySnoc(lines, line, UnitsOf(item));
        assert Returned(history + [Return(APPROVED, lines)], item) <= ordered(item);
      }
      AdminStaysWithinOrdered(history, ordered, lines + [line], rest[1..]);
    }
  }

  /** Starting from any orderly state, the whole admin call keeps returned units within the ordered ones. */
  lemma AdminReturnKeepsWithin(history: seq<Return>, ordered: nat -> nat, selections: seq<Selection>)
    requires WithinOrdered(history, ordered) && AdminLines(history, ordered, [], selections).Ok?
    ensures WithinOrdered(history + [Return(APPROVED, AdminLines(history, ordered, [], selections).value)], ordered)
  {
    forall item: nat ensures Returned(history + [Return(APPROVED, [])], item) <= ordered(item) {
      ReturnedSnoc(history, Return(APPROVED, []), item);
      assert Returned(history, item) <= ordered(item);
    }
    AdminStaysWithinOrdered(history, ordered, [], selections);
  }

  predicate AllPositive(selections: seq<Selection>) {
    forall l :: l in selections ==> l.quantity > 0
  }

  /** Item by item, the selections fit into what was ordered beside a history and the lines already created. */
  ghost predicate Fits(history: seq<Return>, ordered: nat -> nat, lines: seq<ReturnLine>, rest: seq<Selection>) {
    forall item: nat ::
      SumBy(rest, SelectedUnits(item)) <= ordered(item) - Returned(history + [Return(APPROVED, lines)], item)
  }

  lemma FitsStep(history: seq<Return>, ordered: nat -> nat, lines: seq<ReturnLine>, rest: seq<Selection>)
    requires rest != [] && rest[0].quantity > 0
    ensures Fits(history, ordered, lines, rest) <==>
            Fits(history, ordered, lines + [ReturnLine(rest[0].item, rest[0].quantity)], rest[1..])
  {
    var line := ReturnLine(rest[0].item, rest[0].quantity);
    forall item: nat
      ensures SumBy(rest, SelectedUnits(item)) - SumBy(rest[1..], SelectedUnits(item))
           == Returned(history + [Return(APPROVED, lines + [line])], item)
              - Returned(history + [Return(APPROVED, lines)], item)
    {
      ReturnedSnoc(history, Return(APPROVED, lines), item);
      ReturnedSnoc(history, Return(APPROVED, lines + [line]), item);
      SumBySnoc(lines, line, UnitsOf(item));
    }
  }

  lemma {:induction false} AdminFitsIff(history: seq<Return>, ordered: nat -> nat, lines: seq<ReturnLine>,
                                        rest: seq<Selection>)
    requires WithinOrdered(history + [Return(APPROVED, lines)], ordered)
    ensures AdminLines(history, ordered, lines, rest).Ok? <==>
            AllPositive(rest) && Fits(history, ordered, lines, rest)
    ensures AdminLines(history, ordered, lines, rest).Ok? ==>
            AdminLines(history, ordered, lines, rest).value == lines + ToLines(rest)
    decreases |rest|
  {
    if rest != [] {
      var l := rest[0];
      var line := ReturnLine(l.item, if l.quantity > 0 then l.quantity else 0);
      assert AllPositive(rest) <==> l.quantity > 0 && AllPositive(rest[1..]);
      if l.quantity > 0 {
        if l.quantity <= ordered(l.item) - Returned(history + [Return(APPROVED, lines)], l.item) {
          OneMoreWithin(history, ordered, lines, line);
          FitsStep(history, ordered, lines, rest);
          AdminFitsIff(history, ordered, lines + [line], rest[1..]);
          assert ToLines(rest) == [line] + ToLines(rest[1..]);
        } else if AllPositive(rest) {
          SumByNonNegative(rest[1..], SelectedUnits(l.item));
        }
      }
    } else {
      assert ToLines(rest) == [];
    }
  }

  lemma OneMoreWithin(history: seq<Return>, ordered: nat -> nat, lines: seq<ReturnLine>, line: ReturnLine)
    requires WithinOrdered(history + [Return(APPROVED, lines)], ordered)
    requires line.quantity <= ordered(line.item) - Returned(history + [Return(APPROVED, lines)], line.item)
    ensures WithinOrdered(history + [Return(APPROVED, lines + [line])], ordered)
  {
    forall item: nat ensures Returned(history + [Return(APPROVED, lines + [line])], item) <= ordered(item) {
      ReturnedSnoc(history, Return(APPROVED, lines), item);
      ReturnedSnoc(history, Return(APPROVED, lines + [line]), item);
      SumBySnoc(lines, line, UnitsOf(item));
      assert Returned(history + [Return(APPROVED, lines)], item) <= ordered(item);
    }
  }

  /**
   The admin path accepts exactly the selections of positive quantities that fit together, item by item and however
   often they repeat one, and creates one line for each.
   */
  lemma AdminAcceptsIff(history: seq<Return>, ordered: nat -> nat, selections: seq<Selection>)
    requires WithinOrdered(history, ordered)
    ensures AdminLines(history, ordered, [], selections).Ok? <==>
            && (forall l :: l in selections ==> l.quantity > 0)
            && forall item: nat :: SumBy(selections, SelectedUnits(item)) <= ordered(item) - Returned(history, item)
    ensures AdminLines(history, ordered, [], selections).Ok? ==>
              var lines := AdminLines(history, ordered, [], selections).value;
              && |lines| == |selections|
              && forall k :: 0 <= k < |lines| ==>
                   lines[k].item == selections[k].item && lines[k].quantity == selections[k].quantity
  {
    forall item: nat ensures Returned(history + [Return(APPROVED, [])], item) == Returned(history, item) {
      ReturnedSnoc(history, Return(APPROVED, []), item);
    }
    assert WithinOrdered(history + [Return(APPROVED, [])], ordered) by {
      forall item: nat ensures Returned(history + [Return(APPROVED, [])], item) <= ordered(item) {
        assert Returned(history, item) <= ordered(item);
      }
    }
    AdminFitsIff(history, ordered, [], selections);
    FitsNothingYet(history, ordered, selections);
  }

  lemma FitsNothingYet(history: seq<Return>, ordered: nat -> nat, selections: seq<Selection>)
    ensures Fits(history, ordered, [], selections) <==>
            forall item: nat :: SumBy(selections, SelectedUnits(item)) <= ordered(item) - Returned(history, item)
  {
    forall item: nat ensures Returned(history + [Return(APPROVED, [])], item) == Returned(history, item) {
      ReturnedSnoc(history, Return(APPROVED, []), item);
    }
    if Fits(history, ordered, [], selections) {
      forall item: nat ensures SumBy(selections, SelectedUnits(item)) <= ordered(item) - Returned(history, item) {
        assert SumBy(selections, SelectedUnits(item))
            <= ordered(item) - Returned(history + [Return(APPROVED, [])], item);
      }
    }
  }

  lemma {:induction false} ToLinesUnits(lines: seq<Selection>, item: nat)
    requires forall l :: l in lines ==> l.quantity > 0
    ensures SumBy(ToLines(lines), UnitsOf(item)) == SumBy(lines, SelectedUnits(item))
  {
    SumByAligned(ToLines(lines), lines, UnitsOf(item), SelectedUnits(item));
  }

  /**
   The buyer path keeps returned units within the ordered ones exactly when, item by item, all the lines of
   the request together fit; its own check, line by line, does not imply that.
   */
  lemma RequestKeepsWithinIff(history: seq<Return>, ordered: nat -> nat, lines: seq<Selection>)
    requires WithinOrdered(history, ordered) && RequestAccepted(history, ordered, lines)
    ensures WithinOrdered(AfterRequest(history, lines), ordered) <==>
            forall item: nat :: SumBy(lines, SelectedUnits(item)) <= ordered(item) - Returned(history, item)
  {
    forall item: nat
      ensures Returned(AfterRequest(history, lines), item)
           == Returned(history, item) + SumBy(lines, SelectedUnits(item))
    {
      ReturnedSnoc(history, Return(REQUESTED, ToLines(lines)), item);
      ToLinesUnits(lines, item);
    }
    if forall item: nat :: SumBy(lines, SelectedUnits(item)) <= ordered(item) - Returned(history, item) {
      assert WithinOrdered(AfterRequest(history, lines), ordered);
    }
    if WithinOrdered(AfterRequest(history, lines), ordered) {
      forall item: nat ensures SumBy(lines, SelectedUnits(item)) <= ordered(item) - Returned(history, item) {
        assert Returned(AfterRequest(history, lines), item) <= ordered(item);
      }
    }
  }

  predicate ItemsDistinct(lines: seq<Selection>) {
    forall j, k :: 0 <= j < k < |lines| ==> lines[j].item != lines[k].item
  }

  lemma {:induction false} SelectedOnce(lines: seq<Selection>, item: nat)
    requires ItemsDistinct(lines)
    ensures (forall l :: l in lines ==> l.item != item) ==> SumBy(lines, SelectedUnits(item)) == 0
    ensures forall l :: l in lines && l.item == item ==> SumBy(lines, SelectedUnits(item)) == l.quantity
  {
    if lines != [] {
      SelectedOnce(lines[1..], item);
      forall l | l in lines[1..] ensures l.item != lines[0].item {
        var j :| 0 <= j < |lines| - 1 && lines[1..][j] == l;
        assert lines[j + 1] == l;
      }
      assert forall l :: l in lines <==> l == lines[0] || l in lines[1..];
    }
  }

  /** A buyer's request that names no item twice is accepted exactly when it is positive and keeps within the order. */
  lemma DistinctRequestAcceptedIff(history: seq<Return>, ordered: nat -> nat, lines: seq<Selection>)
    requires WithinOrdered(history, ordered) && ItemsDistinct(lines)
    ensures RequestAccepted(history, ordered, lines) <==>
            (forall l :: l in lines ==> l.quantity > 0) && WithinOrdered(AfterRequest(history, lines), ordered)
  {
    if forall l :: l in lines ==> l.quantity > 0 {
      forall item: nat
        ensures Returned(AfterRequest(history, lines), item)
             == Returned(history, item) + SumBy(lines, SelectedUnits(item))
      {
        ReturnedSnoc(history, Return(REQUESTED, ToLines(lines)), item);
        ToLinesUnits(lines, item);
      }
      if RequestAccepted(history, ordered, lines) {
        forall item: nat ensures Returned(AfterRequest(history, lines), item) <= ordered(item) {
          SelectedOnce(lines, item);
          assert Returned(history, item) <= ordered(item);
        }
      }
      if WithinOrdered(AfterRequest(history, lines), ordered) {
        forall l | l in lines ensures l.quantity <= ordered(l.item) - Returned(history, l.item) {
          SelectedOnce(lines, l.item);
          assert Returned(AfterRequest(history, lines), l.item) <= ordered(l.item);
        }
      }
    }
  }

  /** One unit ordered, the same line submitted twice: both are accepted, and two units count as returned. */
  lemma RepeatedLineOverReturns(item: nat, ordered: nat -> nat)
    requires ordered(item) == 1
    ensures var lines := [Selection(item, 1), Selection(item, 1)];
            RequestAccepted([], ordered, lines) && Returned(AfterRequest([], lines), item) == 2
  {
    var lines := [Selection(item, 1), Selection(item, 1)];
    ReturnedSnoc([], Return(REQUESTED, ToLines(lines)), item);
    ToLinesUnits(lines, item);
    SumBySnoc([lines[0]], lines[1], SelectedUnits(item));
  }

  // ---------------------------------------------------------------------------
  // Units and money together
  // ---------------------------------------------------------------------------

  function Priced(price: nat -> nat, lines: seq<ReturnLine>): (r: seq<ReturnedItem>)
    ensures |r| == |lines|
  {
    seq(|lines|, k requires 0 <= k < |lines| => ReturnedItem(price(lines[k].item), lines[k].quantity))
  }

  /** What each return that was not rejected asks to be refunded. */
  function Requests(price: nat -> nat, history: seq<Return>): seq<seq<ReturnedItem>> {
    if history == [] then []
    else
      (if history[0].status == REJECTED then [] else [Priced(price, history[0].lines)]) + Requests(price, history[1..])
  }

  function ItemValue(price: nat -> nat, units: nat -> int): nat -> int {
    (item: nat) => price(item) * units(item)
  }

  function UnitsIn(lines: seq<ReturnLine>): nat -> int {
    (item: nat) => SumBy(lines, UnitsOf(item))
  }

  function ReturnedIn(history: seq<Return>): nat -> int {
    (item: nat) => Returned(history, item)
  }

  function OrderedUnits(ordered: nat -> nat): nat -> int {
    (item: nat) => ordered(item)
  }

  function OneLine(l: ReturnLine): nat -> int {
    (item: nat) => UnitsOf(item)(l)
  }

  lemma {:induction false} NothingOf(items: seq<nat>, price: nat -> nat, units: nat -> int)
    requires forall item :: item in items ==> units(item) == 0
    ensures SumBy(items, ItemValue(price, units)) == 0
  {
    if items != [] {
      assert items[0] in items && price(items[0]) * 0 == 0;
      NothingOf(items[1..], price, units);
    }
  }

  /** Over a list that has the line's item once, the line counts once. */
  lemma {:induction false} LineCounts(items: seq<nat>, price: nat -> nat, l: ReturnLine)
    requires Distinct(items) && l.item in items
    ensures SumBy(items, ItemValue(price, OneLine(l))) == price(l.item) * l.quantity
  {
    if items[0] == l.item {
      forall item: nat | item in items[1..] ensures OneLine(l)(item) == 0 {
        var j :| 0 <= j < |items| - 1 && items[1..][j] == item;
        assert items[j + 1] == item && items[0] != items[j + 1];
        assert item != l.item;
        assert UnitsOf(item)(l) == 0;
      }
      NothingOf(items[1..], price, OneLine(l));
      assert UnitsOf(items[0])(l) == l.quantity;
      assert ItemValue(price, OneLine(l))(items[0]) == price(l.item) * l.quantity;
    } else {
      assert UnitsOf(items[0])(l) == 0 && price(items[0]) * 0 == 0;
      assert ItemValue(price, OneLine(l))(items[0]) == 0;
      assert l.item in items[1..];
      LineCounts(items[1..], price, l);
    }
  }

  lemma ValueAdds(items: seq<nat>, price: nat -> nat, f: nat -> int, g: nat -> int, h: nat -> int)
    requires forall item :: item in items ==> h(item) == f(item) + g(item)
    ensures SumBy(items, ItemValue(price, h)) == SumBy(items, ItemValue(price, f)) + SumBy(items, ItemValue(price, g))
  {
    forall item | item in items
      ensures ItemValue(price, h)(item) == ItemValue(price, f)(item) + ItemValue(price, g)(item)
    {
      assert price(item) * (f(item) + g(item)) == price(item) * f(item) + price(item) * g(item);
    }
    SumByLinear(items, ItemValue(price, f), ItemValue(price, g), ItemValue(price, h));
  }

  /** A request's gross, counted item by item. */
  lemma {:induction false} GrossByItem(items: seq<nat>, price: nat -> nat, lines: seq<ReturnLine>)
    requires Distinct(items) && forall l :: l in lines ==> l.item in items
    ensures SumBy(Priced(price, lines), Gross()) == SumBy(items, ItemValue(price, UnitsIn(lines)))
  {
    if lines == [] {
      NothingOf(items, price, UnitsIn(lines));
    } else {
      assert lines[0] in lines;
      GrossByItem(items, price, lines[1..]);
      assert Priced(price, lines)[1..] == Priced(price, lines[1..]);
      LineCounts(items, price, lines[0]);
      ValueAdds(items, price, OneLine(lines[0]), UnitsIn(lines[1..]), UnitsIn(lines));
    }
  }

  ghost predicate LinesFrom(history: seq<Return>, items: seq<nat>) {
    forall r :: r in history ==> forall l :: l in r.lines ==> l.item in items
  }

  /** All requests' gross, counted item by item over the units that count as returned. */
  lemma {:induction false} RequestsByItem(items: seq<nat>, price: nat -> nat, history: seq<Return>)
    requires Distinct(items) && LinesFrom(history, items)
    ensures SumBy(Requests(price, history), GrossOf()) == SumBy(items, ItemValue(price, ReturnedIn(history)))
  {
    if history == [] {
      NothingOf(items, price, ReturnedIn(history));
    } else {
      assert history[0] in history && forall r :: r in history[1..] ==> r in history;
      RequestsByItem(items, price, history[1..]);
      if history[0].status == REJECTED {
        RejectedAddsNothing(items, price, history);
      } else {
        LiveAddsItsLines(items, price, history);
      }
    }
  }

  lemma RejectedAddsNothing(items: seq<nat>, price: nat -> nat, history: seq<Return>)
    requires history != [] && history[0].status == REJECTED
    ensures Requests(price, history) == Requests(price, history[1..])
    ensures SumBy(items, ItemValue(price, ReturnedIn(history)))
         == SumBy(items, ItemValue(price, ReturnedIn(history[1..])))
  {
    forall item: nat ensures Returned(history, item) == Returned(history[1..], item) {
    }
    SumByPointwise(items, ItemValue(price, ReturnedIn(history)), ItemValue(price, ReturnedIn(history[1..])));
  }

  lemma LiveAddsItsLines(items: seq<nat>, price: nat -> nat, history: seq<Return>)
    requires Distinct(items) && LinesFrom(history, items) && history != [] && history[0].status != REJECTED
    ensures SumBy(Requests(price, history), GrossOf())
         == SumBy(items, ItemValue(price, UnitsIn(history[0].lines))) + SumBy(Requests(price, history[1..]), GrossOf())
    ensures SumBy(items, ItemValue(price, ReturnedIn(history)))
         == SumBy(items, ItemValue(price, UnitsIn(history[0].lines)))
            + SumBy(items, ItemValue(price, ReturnedIn(history[1..])))
  {
    var lines := history[0].lines;
    assert history[0] in history;
    GrossByItem(items, price, lines);
    SumByConcat([Priced(price, lines)], Requests(price, history[1..]), GrossOf());
    ValueAdds(items, price, UnitsIn(lines), ReturnedIn(history[1..]), ReturnedIn(history));
  }

  /** Returned units within the ordered ones are worth no more than what was ordered. */
  lemma ReturnedWorth(items: seq<nat>, price: nat -> nat, ordered: nat -> nat, history: seq<Return>)
    requires Distinct(items) && LinesFrom(history, items) && WithinOrdered(history, ordered)
    ensures SumBy(Requests(price, history), GrossOf()) <= SumBy(items, ItemValue(price, OrderedUnits(ordered)))
  {
    RequestsByItem(items, price, history);
    forall item | item in items
      ensures ItemValue(price, ReturnedIn(history))(item) <= ItemValue(price, OrderedUnits(ordered))(item)
    {
      assert Returned(history, item) <= ordered(item);
      MulMono(price(item), Returned(history, item), ordered(item));
      assert ItemValue(price, ReturnedIn(history))(item) == price(item) * Returned(history, item);
      assert ItemValue(price, OrderedUnits(ordered))(item) == price(item) * ordered(item);
    }
    SumByAtMost(items, ItemValue(price, ReturnedIn(history)), ItemValue(price, OrderedUnits(ordered)));
  }

  /**
   However a sub-order's items come back, in returns that together keep within what was ordered and each short of
   the whole: k of them refund at most the discounted goods and k/2 pence.
   */
  lemma ReturnsRefundWithinGoods(sub: SubOrder, items: seq<nat>, price: nat -> nat, ordered: nat -> nat,
                                 history: seq<Return>)
    requires Distinct(items) && sub.goods == SumBy(items, ItemValue(price, OrderedUnits(ordered)))
    requires 0 < sub.goods && sub.discount <= sub.goods
    requires LinesFrom(history, items) && WithinOrdered(history, ordered)
    requires forall request :: request in Requests(price, history) ==> IsPartial(sub, request)
    ensures 2 * SumBy(Requests(price, history), RefundOf(sub))
            <= 2 * (sub.goods - sub.discount) + |Requests(price, history)|
  {
    ReturnedWorth(items, price, ordered, history);
    PartialRefundsBounded(sub, Requests(price, history));
  }
}
