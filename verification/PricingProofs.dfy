/** What the pricing pass guarantees about its own breakdown. */
module PricingProofs {
  import opened Results
  import opened Sums
  import opened Rounding
  import opened Allocation
  import opened Pricing

  // ---------------------------------------------------------------------------
  // The discount a code gives
  // ---------------------------------------------------------------------------

  /** A percentage is taken of the goods, a fixed value is taken off them, and neither takes more than the goods. */
  lemma DiscountIs(code: DiscountCode, goods: nat)
    ensures code.kind == PERCENTAGE && code.value <= 10000 ==>
              NearestEven(ComputeDiscount(code, goods), goods * code.value, 10000)
    ensures code.kind == PERCENTAGE && code.value >= 10000 ==> ComputeDiscount(code, goods) == goods
    ensures code.kind == FIXED && code.value <= goods ==> ComputeDiscount(code, goods) == code.value
    ensures code.kind == FIXED && code.value >= goods ==> ComputeDiscount(code, goods) == goods
  {
    HalfEvenIs(goods * code.value, 10000);
    if code.kind == PERCENTAGE {
      if code.value <= 10000 {
        MulMono(goods, code.value, 10000);
      }
      if code.value >= 10000 {
        MulMono(goods, 10000, code.value);
        NearestBetween(HalfEven(goods * 10000, 10000), goods * 10000, 10000, goods, goods);
      }
    }
  }

  // ---------------------------------------------------------------------------
  // The two-level discount allocation composes
  // ---------------------------------------------------------------------------

  function LineDiscount(): LinePricing -> int {
    (l: LinePricing) => l.discount
  }

  lemma GoodsIsTotal(items: seq<Item>)
    ensures Goods(items) == Total(LineTotals(items))
  {
    SumByAligned(items, LineTotals(items), LineTotal(), Self());
  }

  /** Within a sub-order: the line discounts make up its discount and none exceeds its line. */
  lemma LineDiscountsCompose(g: Group, discount: nat)
    requires discount <= Goods(g.items)
    ensures var sub := PriceGroup(g, discount);
            && SumBy(sub.lines, LineDiscount()) == sub.discount
            && forall k :: 0 <= k < |sub.lines| ==> sub.lines[k].discount <= sub.lines[k].item.lineTotal
  {
    var weights := LineTotals(g.items);
    var (parts, sub) := (Allocate(discount, weights), PriceGroup(g, discount));
    GoodsIsTotal(g.items);
    AllocateSums(discount, weights);
    SumByAligned(sub.lines, parts, LineDiscount(), Self());
    if Total(weights) > 0 {
      forall k: nat | k < |weights| ensures parts[k] <= weights[k] {
        PartNearShare(discount, weights, k);
      }
    }
  }

  lemma OrderDiscountCapped(groups: seq<Group>, code: Option<DiscountCode>)
    ensures OrderDiscount(groups, code) <= OrderGoods(groups)
  {
    if code.Some? {
      DiscountCapped(code.value, OrderGoods(groups));
    }
  }

  lemma GroupDiscountCapped(groups: seq<Group>, code: Option<DiscountCode>, j: nat)
    requires j < |groups|
    ensures Allocate(OrderDiscount(groups, code), GroupGoods(groups))[j] <= Goods(groups[j].items)
  {
    OrderDiscountCapped(groups, code);
    if OrderGoods(groups) > 0 {
      PartNearShare(OrderDiscount(groups, code), GroupGoods(groups), j);
    }
  }

  /**
   Order to supplier to line: the line discounts sum to each sub-order's discount, those sum to the order's
   discount, which is the code's, and no discount exceeds the goods it is taken from at either level.
   */
  lemma DiscountsCompose(groups: seq<Group>, code: Option<DiscountCode>)
    ensures var p := PriceOrder(groups, code);
            && |p.subs| == |groups|
            && p.discount == OrderDiscount(groups, code)
            && forall j :: 0 <= j < |groups| ==>
                 && p.subs[j].discount <= p.subs[j].goods
                 && SumBy(p.subs[j].lines, LineDiscount()) == p.subs[j].discount
                 && forall k :: 0 <= k < |p.subs[j].lines| ==>
                      p.subs[j].lines[k].discount <= p.subs[j].lines[k].item.lineTotal
  {
    var (total, weights) := (OrderDiscount(groups, code), GroupGoods(groups));
    var (parts, p) := (Allocate(total, weights), PriceOrder(groups, code));
    OrderDiscountCapped(groups, code);
    AllocateSums(total, weights);
    SumByAligned(p.subs, parts, SubDiscount(), Self());
    forall j | 0 <= j < |groups|
      ensures p.subs[j].discount <= p.subs[j].goods
      ensures SumBy(p.subs[j].lines, LineDiscount()) == p.subs[j].discount
      ensures forall k :: 0 <= k < |p.subs[j].lines| ==>
                p.subs[j].lines[k].discount <= p.subs[j].lines[k].item.lineTotal
    {
      GroupDiscountCapped(groups, code, j);
      LineDiscountsCompose(groups[j], parts[j]);
    }
  }

  // ---------------------------------------------------------------------------
  // Totals
  // ---------------------------------------------------------------------------

  lemma {:induction false} TotalsOf(subs: seq<SubPricing>)
    requires forall s :: s in subs ==> s.total == s.goods - s.discount + s.shipping
    ensures var p := Summed(subs);
            p.total == p.goods - p.discount + p.shipping
  {
    if subs != [] {
      TotalsOf(subs[1..]);
    }
  }

  /** The charge is the code's discount off the goods, plus shipping: nothing else enters or leaves. */
  lemma OrderTotalReconciles(groups: seq<Group>, code: Option<DiscountCode>)
    ensures var p := PriceOrder(groups, code);
            && p.goods == OrderGoods(groups)
            && p.total == OrderGoods(groups) - OrderDiscount(groups, code) + p.shipping
            && p.total >= p.shipping >= 0
  {
    var p := PriceOrder(groups, code);
    TotalsOf(p.subs);
    DiscountsCompose(groups, code);
    OrderDiscountCapped(groups, code);
    SumByAligned(p.subs, GroupGoods(groups), SubGoods(), Self());
    SumByNonNegative(p.subs, SubShipping());
  }

  function GroupValue(): Group -> int {
    (g: Group) => SumBy(g.items, LineTotal())
  }

  /** The discount charged on a whole order, by the code's own terms, off the goods of all its items. */
  lemma ChargedDiscount(groups: seq<Group>, code: DiscountCode)
    ensures var (p, goods) := (PriceOrder(groups, Some(code)), SumBy(groups, GroupValue()));
            && p.goods == goods >= 0
            && (code.kind == PERCENTAGE && code.value <= 10000 ==> NearestEven(p.discount, goods * code.value, 10000))
            && (code.kind == PERCENTAGE && code.value >= 10000 ==> p.discount == goods)
            && (code.kind == FIXED ==> p.discount == if code.value <= goods then code.value else goods)
            && PriceOrder(groups, None).discount == 0
  {
    SumByAligned(groups, GroupGoods(groups), GroupValue(), Self());
    OrderTotalReconciles(groups, Some(code));
    DiscountsCompose(groups, Some(code));
    DiscountsCompose(groups, None);
    DiscountIs(code, OrderGoods(groups));
  }

  /** Within a penny of the exact share `total * w / sum`. */
  predicate WithinAPenny(part: int, total: int, w: int, sum: int) {
    sum * (part - 1) < total * w < sum * (part + 1)
  }

  /** What a supplier's own terms ask for shipping these items. */
  predicate ShippingByTerms(shipping: int, terms: Supplier, goods: int, units: int) {
    match terms.mode
    case PLATFORM_DELIVERY => shipping == terms.platformFee
    case SUPPLIER_SHIP =>
      match terms.policy
      case FLAT => shipping == terms.flatRate
      case PER_ITEM => shipping == terms.perItemRate * units
      case FREE_OVER_THRESHOLD =>
        shipping == if terms.freeThreshold == None || goods < terms.freeThreshold.value then terms.flatRate else 0
  }

  /**
   Each sub-order, from its own supplier's items: goods are their line totals; the order's discount falls on it in
   proportion to its goods, to the penny; shipping is the courier's quote or the supplier's terms; and the total is
   goods less discount plus shipping.
   */
  lemma SubOrderIs(groups: seq<Group>, code: Option<DiscountCode>, j: nat)
    requires j < |groups|
    ensures var (p, g) := (PriceOrder(groups, code), groups[j]);
            && |p.subs| == |groups|
            && var sub := p.subs[j];
            && sub.supplier == g.supplier
            && sub.goods == SumBy(g.items, LineTotal())
            && sub.total == sub.goods - sub.discount + sub.shipping
            && (p.goods > 0 ==> WithinAPenny(sub.discount, p.discount, sub.goods, p.goods))
            && (if g.quote.Some? then sub.shipping == g.quote.value
                else ShippingByTerms(sub.shipping, g.supplier, sub.goods, SumBy(g.items, ItemQuantity())))
  {
    DiscountsCompose(groups, code);
    OrderTotalReconciles(groups, code);
    if OrderGoods(groups) > 0 {
      PartNearShare(OrderDiscount(groups, code), GroupGoods(groups), j);
    }
  }

  /** And each of its lines: the supplier's items in their order, each bearing its proportion of the discount. */
  lemma LineIs(groups: seq<Group>, code: Option<DiscountCode>, j: nat, k: nat)
    requires j < |groups| && k < |groups[j].items|
    ensures var sub := PriceOrder(groups, code).subs[j];
            && |sub.lines| == |groups[j].items|
            && sub.lines[k].item == groups[j].items[k]
            && (sub.goods > 0 ==>
                  WithinAPenny(sub.lines[k].discount, sub.discount, groups[j].items[k].lineTotal, sub.goods))
  {
    var (g, sub) := (groups[j], PriceOrder(groups, code).subs[j]);
    GoodsIsTotal(g.items);
    if sub.goods > 0 {
      PartNearShare(sub.discount, LineTotals(g.items), k);
    }
  }

  // ---------------------------------------------------------------------------
  // VAT
  // ---------------------------------------------------------------------------

  /** Exact VAT in 1/42 pence: g/6 at the standard rate, g/21 at the reduced rate, none at zero. */
  function ExactVat42(gross: int, rate: VatRate): int {
    match rate
    case STANDARD => 7 * gross
    case REDUCED => 2 * gross
    case ZERO => 0
  }

  /** One rounded component: non-negative, within its gross, and nearest to exact, an odd half penny going up. */
  lemma VatOfComponent(gross: nat, rate: VatRate)
    ensures var vat := ExtractVat(gross, rate);
            0 <= vat <= gross && -21 < 42 * vat - ExactVat42(gross, rate) <= 21
  {
    match rate
    case STANDARD =>
      HalfUpNearest(gross * 20, 120);
      NearestBetween(HalfUp(gross * 20, 120), gross * 20, 120, 0, gross);
    case REDUCED =>
      HalfUpNearest(gross * 5, 105);
      NearestBetween(HalfUp(gross * 5, 105), gross * 5, 105, 0, gross);
    case ZERO =>
  }

  function LineExactVat42(): LinePricing -> int {
    (l: LinePricing) => ExactVat42(l.item.lineTotal - l.discount, l.item.rate)
  }

  function LineNet(): LinePricing -> int {
    (l: LinePricing) => l.item.lineTotal - l.discount
  }

  lemma {:induction false} VatOfLines(lines: seq<LinePricing>)
    requires forall l :: l in lines ==> l == PriceLine(l.item, l.discount) && l.discount <= l.item.lineTotal
    ensures var vat := SumBy(lines, LineVat());
            && 0 <= vat <= SumBy(lines, LineNet())
            && -21 * |lines| <= 42 * vat - SumBy(lines, LineExactVat42()) <= 21 * |lines|
  {
    if lines != [] {
      var l := lines[0];
      assert l in lines;
      VatOfComponent(l.item.lineTotal - l.discount, l.item.rate);
      VatOfLines(lines[1..]);
    }
  }

  lemma {:induction false} NetOfLines(items: seq<Item>, discounts: seq<nat>)
    requires |items| == |discounts|
    ensures SumBy(PriceLines(items, discounts), LineNet()) == Goods(items) - Total(discounts)
  {
    if items != [] {
      NetOfLines(items[1..], discounts[1..]);
      assert PriceLines(items, discounts)[1..] == PriceLines(items[1..], discounts[1..]);
    }
  }

  /**
   Mixed rates in one sub-order: its VAT lies between nothing and its total, and differs from the exact
   rational VAT by at most half a penny for each line and half a penny for shipping.
   */
  lemma SubOrderVat(g: Group, discount: nat)
    requires discount <= Goods(g.items)
    ensures var sub := PriceGroup(g, discount);
            && 0 <= sub.vat <= sub.total
            && var exact := SumBy(sub.lines, LineExactVat42()) + ExactVat42(sub.shipping, STANDARD);
               -21 * (|sub.lines| + 1) <= 42 * sub.vat - exact <= 21 * (|sub.lines| + 1)
  {
    var sub := PriceGroup(g, discount);
    LineDiscountsCompose(g, discount);
    forall l | l in sub.lines ensures l == PriceLine(l.item, l.discount) && l.discount <= l.item.lineTotal {
      var k :| 0 <= k < |sub.lines| && sub.lines[k] == l;
    }
    VatOfLines(sub.lines);
    NetOfLines(g.items, Allocate(discount, LineTotals(g.items)));
    GoodsIsTotal(g.items);
    AllocateSums(discount, LineTotals(g.items));
    VatOfComponent(sub.shipping, STANDARD);
  }

  lemma {:induction false} VatsOf(subs: seq<SubPricing>)
    requires forall s :: s in subs ==> 0 <= s.vat <= s.total
    ensures 0 <= Summed(subs).vat <= Summed(subs).total
  {
    if subs != [] {
      assert subs[0] in subs;
      VatsOf(subs[1..]);
    }
  }

  lemma OrderVatWithinTotal(groups: seq<Group>, code: Option<DiscountCode>)
    ensures 0 <= PriceOrder(groups, code).vat <= PriceOrder(groups, code).total
  {
    var p := PriceOrder(groups, code);
    forall s | s in p.subs ensures 0 <= s.vat <= s.total {
      var j :| 0 <= j < |p.subs| && p.subs[j] == s;
      GroupDiscountCapped(groups, code, j);
      SubOrderVat(groups[j], s.discount);
    }
    VatsOf(p.subs);
  }
}
