/**
 The checkout pricing pass (apps/orders/pricing.py, DiscountCode.compute_discount,
 Supplier.compute_shipping). Amounts are whole pence; percentages are in hundredths of a percent.
 */
module Pricing {
  import opened Results
  import opened Sums
  import opened Rounding
  import opened Allocation

  datatype VatRate = STANDARD | REDUCED | ZERO

  function VatPercent(rate: VatRate): nat {
    match rate
    case STANDARD => 20
    case REDUCED => 5
    case ZERO => 0
  }

  /** VAT contained in a VAT-inclusive amount: gross * r / (1 + r), to the penny, half up. */
  function ExtractVat(gross: int, rate: VatRate): int {
    var p := VatPercent(rate);
    if p == 0 then 0 else HalfUp(gross * p, 100 + p)
  }

  datatype FulfilmentMode = SUPPLIER_SHIP | PLATFORM_DELIVERY

  datatype ShippingPolicy = FLAT | FREE_OVER_THRESHOLD | PER_ITEM

  datatype Supplier = Supplier(
    mode: FulfilmentMode,
    policy: ShippingPolicy,
    flatRate: nat,
    perItemRate: nat,
    freeThreshold: Option<nat>,
    platformFee: nat,
    commission: nat)

  function ComputeShipping(s: Supplier, goods: nat, quantity: nat): nat {
    if s.mode == PLATFORM_DELIVERY then s.platformFee
    else if s.policy == PER_ITEM then s.perItemRate * quantity
    else if s.policy == FREE_OVER_THRESHOLD && s.freeThreshold.Some? && goods >= s.freeThreshold.value then 0
    else s.flatRate
  }

  datatype DiscountType = PERCENTAGE | FIXED

  datatype DiscountCode = DiscountCode(kind: DiscountType, value: nat)

  /** min(raw, goods), rounded half even. A fixed value is pence, a percentage hundredths of a percent. */
  function ComputeDiscount(code: DiscountCode, goods: nat): int {
    match code.kind
    case PERCENTAGE =>
      if goods * code.value <= goods * 10000 then HalfEven(goods * code.value, 10000) else goods
    case FIXED => if code.value <= goods then code.value else goods
  }

  lemma DiscountCapped(code: DiscountCode, goods: nat)
    ensures 0 <= ComputeDiscount(code, goods) <= goods
  {
    if code.kind == PERCENTAGE && goods * code.value <= goods * 10000 {
      HalfEvenNearest(goods * code.value, 10000);
      NearestBetween(HalfEven(goods * code.value, 10000), goods * code.value, 10000, 0, goods);
    }
  }

  // ---------------------------------------------------------------------------
  // The pricing pass
  // ---------------------------------------------------------------------------

  datatype Item = Item(variant: nat, quantity: nat, lineTotal: nat, rate: VatRate)

  /** One supplier's items, with the live courier quote for it when there is one. */
  datatype Group = Group(supplier: Supplier, items: seq<Item>, quote: Option<nat>)

  datatype LinePricing = LinePricing(item: Item, discount: nat, vat: int)

  datatype SubPricing = SubPricing(
    supplier: Supplier, lines: seq<LinePricing>, goods: nat, discount: nat, shipping: nat, vat: int, total: int)

  datatype OrderPricing = OrderPricing(
    subs: seq<SubPricing>, goods: int, discount: int, shipping: int, vat: int, total: int)

  function LineTotal(): Item -> int {
    (i: Item) => i.lineTotal
  }

  function ItemQuantity(): Item -> int {
    (i: Item) => i.quantity
  }

  function Goods(items: seq<Item>): (r: nat) {
    SumByNonNegative(items, LineTotal());
    SumBy(items, LineTotal())
  }

  function Quantity(items: seq<Item>): (r: nat) {
    SumByNonNegative(items, ItemQuantity());
    SumBy(items, ItemQuantity())
  }

  function LineTotals(items: seq<Item>): (r: seq<nat>)
    ensures |r| == |items|
  {
    seq(|items|, k requires 0 <= k < |items| => items[k].lineTotal)
  }

  function GroupGoods(groups: seq<Group>): (r: seq<nat>)
    ensures |r| == |groups|
  {
    seq(|groups|, j requires 0 <= j < |groups| => Goods(groups[j].items))
  }

  function PriceLine(item: Item, discount: nat): LinePricing {
    LinePricing(item, discount, ExtractVat(item.lineTotal - discount, item.rate))
  }

  function PriceLines(items: seq<Item>, discounts: seq<nat>): (r: seq<LinePricing>)
    requires |items| == |discounts|
    ensures |r| == |items|
  {
    seq(|items|, k requires 0 <= k < |items| => PriceLine(items[k], discounts[k]))
  }

  function LineVat(): LinePricing -> int {
    (l: LinePricing) => l.vat
  }

  function Shipping(g: Group): nat {
    if g.quote.Some? then g.quote.value else ComputeShipping(g.supplier, Goods(g.items), Quantity(g.items))
  }

  function PriceGroup(g: Group, discount: nat): SubPricing {
    var lines := PriceLines(g.items, Allocate(discount, LineTotals(g.items)));
    var (goods, shipping) := (Goods(g.items), Shipping(g));
    SubPricing(g.supplier, lines, goods, discount, shipping,
               SumBy(lines, LineVat()) + ExtractVat(shipping, STANDARD),
               goods - discount + shipping)
  }

  function OrderGoods(groups: seq<Group>): nat {
    Total(GroupGoods(groups))
  }

  function OrderDiscount(groups: seq<Group>, code: Option<DiscountCode>): nat {
    if code.None? then 0
    else
      DiscountCapped(code.value, OrderGoods(groups));
      ComputeDiscount(code.value, OrderGoods(groups))
  }

  function PriceGroups(groups: seq<Group>, discounts: seq<nat>): (r: seq<SubPricing>)
    requires |groups| == |discounts|
    ensures |r| == |groups|
  {
    seq(|groups|, j requires 0 <= j < |groups| => PriceGroup(groups[j], discounts[j]))
  }

  function SubGoods(): SubPricing -> int {
    (s: SubPricing) => s.goods
  }

  function SubDiscount(): SubPricing -> int {
    (s: SubPricing) => s.discount
  }

  function SubShipping(): SubPricing -> int {
    (s: SubPricing) => s.shipping
  }

  function SubVat(): SubPricing -> int {
    (s: SubPricing) => s.vat
  }

  function SubTotal(): SubPricing -> int {
    (s: SubPricing) => s.total
  }

  /** Order totals are the sums of the sub-orders' snapshots. */
  function Summed(subs: seq<SubPricing>): OrderPricing {
    OrderPricing(subs, SumBy(subs, SubGoods()), SumBy(subs, SubDiscount()), SumBy(subs, SubShipping()),
                 SumBy(subs, SubVat()), SumBy(subs, SubTotal()))
  }

  function PriceOrder(groups: seq<Group>, code: Option<DiscountCode>): OrderPricing {
    Summed(PriceGroups(groups, Allocate(OrderDiscount(groups, code), GroupGoods(groups))))
  }

  // ---------------------------------------------------------------------------
  // As the code runs
  // ---------------------------------------------------------------------------

  method PriceItems(items: seq<Item>, discounts: seq<nat>)
    returns (lines: seq<LinePricing>, totalQuantity: nat, subVat: int)
    requires |items| == |discounts|
    ensures lines == PriceLines(items, discounts)
    ensures totalQuantity == Quantity(items) && subVat == SumBy(lines, LineVat())
  {
    lines, totalQuantity, subVat := [], 0, 0;
    for k := 0 to |items|
      invariant |lines| == k && forall p :: 0 <= p < k ==> lines[p] == PriceLine(items[p], discounts[p])
      invariant totalQuantity == SumBy(items[..k], ItemQuantity())
      invariant subVat == SumBy(lines, LineVat())
    {
      var lineVat := ExtractVat(items[k].lineTotal - discounts[k], items[k].rate);
      var line := LinePricing(items[k], discounts[k], lineVat);
      SumBySnoc(lines, line, LineVat());
      SumBySnoc(items[..k], items[k], ItemQuantity());
      assert items[..k + 1] == items[..k] + [items[k]];
      lines := lines + [line];
      totalQuantity := totalQuantity + items[k].quantity;
      subVat := subVat + lineVat;
    }
    assert items[..|items|] == items;
  }

  method ComputeSubOrder(g: Group, discount: nat) returns (sub: SubPricing)
    ensures sub == PriceGroup(g, discount)
  {
    var lineDiscounts := AllocateLargestRemainder(discount, LineTotals(g.items));
    var lines, totalQuantity, subVat := PriceItems(g.items, lineDiscounts);
    var goods := Goods(g.items);
    var shipping := if g.quote.Some? then g.quote.value else ComputeShipping(g.supplier, goods, totalQuantity);
    subVat := subVat + ExtractVat(shipping, STANDARD);
    sub := SubPricing(g.supplier, lines, goods, discount, shipping, subVat, goods - discount + shipping);
  }

  /** The loop over suppliers, accumulating the order's totals. */
  ghost predicate AreTotals(subs: seq<SubPricing>, goods: int, discount: int, shipping: int, vat: int, total: int) {
    && goods == SumBy(subs, SubGoods()) && discount == SumBy(subs, SubDiscount())
    && shipping == SumBy(subs, SubShipping()) && vat == SumBy(subs, SubVat()) && total == SumBy(subs, SubTotal())
  }

  method AccumulateSubOrders(groups: seq<Group>, discounts: seq<nat>)
    returns (subs: seq<SubPricing>, goods: int, discount: int, shipping: int, vat: int, total: int)
    requires |groups| == |discounts|
    ensures subs == PriceGroups(groups, discounts)
    ensures AreTotals(subs, goods, discount, shipping, vat, total)
  {
    subs, goods, discount, shipping, vat, total := [], 0, 0, 0, 0, 0;
    for j := 0 to |groups|
      invariant |subs| == j && PricedSoFar(subs, groups, discounts)
      invariant AreTotals(subs, goods, discount, shipping, vat, total)
    {
      var sub := ComputeSubOrder(groups[j], discounts[j]);
      PricedSnoc(subs, sub, groups, discounts);
      subs, goods, discount, shipping, vat, total := AddSubOrder(subs, goods, discount, shipping, vat, total, sub);
    }
  }

  ghost predicate PricedSoFar(subs: seq<SubPricing>, groups: seq<Group>, discounts: seq<nat>)
    requires |groups| == |discounts|
  {
    |subs| <= |groups| && forall p :: 0 <= p < |subs| ==> subs[p] == PriceGroup(groups[p], discounts[p])
  }

  lemma PricedSnoc(subs: seq<SubPricing>, sub: SubPricing, groups: seq<Group>, discounts: seq<nat>)
    requires |groups| == |discounts| && |subs| < |groups| && PricedSoFar(subs, groups, discounts)
    requires sub == PriceGroup(groups[|subs|], discounts[|subs|])
    ensures PricedSoFar(subs + [sub], groups, discounts)
  {
  }

  /** The end of the loop body: append the sub-order and add its figures to the order's. */
  method AddSubOrder(subs0: seq<SubPricing>, goods0: int, discount0: int, shipping0: int, vat0: int, total0: int,
                     sub: SubPricing)
    returns (subs: seq<SubPricing>, goods: int, discount: int, shipping: int, vat: int, total: int)
    requires AreTotals(subs0, goods0, discount0, shipping0, vat0, total0)
    ensures subs == subs0 + [sub] && AreTotals(subs, goods, discount, shipping, vat, total)
  {
    TotalsSnoc(subs0, sub, goods0, discount0, shipping0, vat0, total0);
    subs := subs0 + [sub];
    goods, discount, shipping := goods0 + sub.goods, discount0 + sub.discount, shipping0 + sub.shipping;
    vat, total := vat0 + sub.vat, total0 + sub.total;
  }

  method ComputeOrderPricing(groups: seq<Group>, code: Option<DiscountCode>) returns (order: OrderPricing)
    ensures order == PriceOrder(groups, code)
  {
    var groupGoods := GroupGoods(groups);
    var totalDiscount := OrderDiscount(groups, code);
    var groupDiscounts := AllocateLargestRemainder(totalDiscount, groupGoods);
    var subs, goods, discount, shipping, vat, total := AccumulateSubOrders(groups, groupDiscounts);
    order := OrderPricing(subs, goods, discount, shipping, vat, total);
  }

  /** One more sub-order adds its own figures to every total. */
  lemma TotalsSnoc(subs: seq<SubPricing>, sub: SubPricing,
                   goods: int, discount: int, shipping: int, vat: int, total: int)
    requires AreTotals(subs, goods, discount, shipping, vat, total)
    ensures AreTotals(subs + [sub], goods + sub.goods, discount + sub.discount, shipping + sub.shipping,
                      vat + sub.vat, total + sub.total)
  {
    SumBySnoc(subs, sub, SubGoods());
    SumBySnoc(subs, sub, SubDiscount());
    SumBySnoc(subs, sub, SubShipping());
    SumBySnoc(subs, sub, SubVat());
    SumBySnoc(subs, sub, SubTotal());
  }
}
