/**
 preview_discount and place_order price the same basket through the same pass: the first from the cart,
 without courier quotes, the second from the submitted lines. Both group lines by supplier in order of
 first appearance.
 */
module CheckoutPreview {
  import opened Results
  import opened Sums
  import G = Grouping
  import opened Rounding
  import opened Allocation
  import opened Pricing
  import opened PricingProofs

  datatype Line = Line(supplier: nat, item: Item)

  function SupplierKey(): Line -> nat {
    (l: Line) => l.supplier
  }

  function ItemsOf(lines: seq<Line>): (r: seq<Item>)
    ensures |r| == |lines|
  {
    seq(|lines|, k requires 0 <= k < |lines| => lines[k].item)
  }

  function ToGroup(g: G.Group<Line>, suppliers: nat -> Supplier, quotes: nat -> Option<nat>): Group {
    Group(suppliers(g.key), ItemsOf(g.items), quotes(g.key))
  }

  function ToGroups(gs: seq<G.Group<Line>>, suppliers: nat -> Supplier, quotes: nat -> Option<nat>): (r: seq<Group>)
    ensures |r| == |gs|
  {
    seq(|gs|, j requires 0 <= j < |gs| => ToGroup(gs[j], suppliers, quotes))
  }

  function PriceBasket(lines: seq<Line>, suppliers: nat -> Supplier, quotes: nat -> Option<nat>,
                       code: Option<DiscountCode>): OrderPricing
  {
    PriceOrder(ToGroups(G.GroupBy(lines, SupplierKey()), suppliers, quotes), code)
  }

  function NoQuotes(): nat -> Option<nat> {
    (k: nat) => None
  }

  // ---------------------------------------------------------------------------
  // What the price depends on: goods value and quantity per supplier
  // ---------------------------------------------------------------------------

  function LineGoods(): Line -> int {
    (l: Line) => l.item.lineTotal
  }

  function GoodsFrom(k: nat): Line -> int {
    (l: Line) => if l.supplier == k then l.item.lineTotal else 0
  }

  function UnitsFrom(k: nat): Line -> int {
    (l: Line) => if l.supplier == k then l.item.quantity else 0
  }

  function LineUnits(): Line -> int {
    (l: Line) => l.item.quantity
  }

  lemma {:induction false} SumOverFilter(lines: seq<Line>, k: nat, f: Line -> int, fk: Line -> int)
    requires forall l :: fk(l) == if l.supplier == k then f(l) else 0
    ensures SumBy(Filter(lines, G.HasKey(SupplierKey(), k)), f) == SumBy(lines, fk)
  {
    if lines != [] {
      SumOverFilter(lines[1..], k, f, fk);
    }
  }

  /** A supplier's group carries exactly that supplier's goods value and units. */
  lemma GroupTotals(lines: seq<Line>, j: nat)
    requires j < |G.GroupBy(lines, SupplierKey())|
    ensures var g := G.GroupBy(lines, SupplierKey())[j];
            && Goods(ItemsOf(g.items)) == SumBy(lines, GoodsFrom(g.key))
            && Quantity(ItemsOf(g.items)) == SumBy(lines, UnitsFrom(g.key))
  {
    var g := G.GroupBy(lines, SupplierKey())[j];
    G.GroupByPartitions(lines, SupplierKey());
    SumByAligned(ItemsOf(g.items), g.items, LineTotal(), LineGoods());
    SumByAligned(ItemsOf(g.items), g.items, ItemQuantity(), LineUnits());
    SumOverFilter(lines, g.key, LineGoods(), GoodsFrom(g.key));
    SumOverFilter(lines, g.key, LineUnits(), UnitsFrom(g.key));
  }

  /** Shipping charged for supplier `k`, from its totals in the basket alone. */
  function ShippingFor(lines: seq<Line>, suppliers: nat -> Supplier, quotes: nat -> Option<nat>): nat -> int {
    (k: nat) =>
      if quotes(k).Some? then quotes(k).value
      else
        var (goods, units) := (SumBy(lines, GoodsFrom(k)), SumBy(lines, UnitsFrom(k)));
        if goods >= 0 && units >= 0 then ComputeShipping(suppliers(k), goods, units) else 0
  }

  function SupplierKeys(lines: seq<Line>): seq<nat> {
    G.Keys(G.GroupBy(lines, SupplierKey()))
  }

  lemma BasketGoods(lines: seq<Line>, suppliers: nat -> Supplier, quotes: nat -> Option<nat>)
    ensures OrderGoods(ToGroups(G.GroupBy(lines, SupplierKey()), suppliers, quotes)) == SumBy(lines, LineGoods())
  {
    var gs := G.GroupBy(lines, SupplierKey());
    var goods := GroupGoods(ToGroups(gs, suppliers, quotes));
    forall j | 0 <= j < |gs| ensures goods[j] == G.ItemSum(LineGoods())(gs[j]) {
      SumByAligned(ItemsOf(gs[j].items), gs[j].items, LineTotal(), LineGoods());
    }
    SumByAligned(goods, gs, Self(), G.ItemSum(LineGoods()));
    G.GroupingKeepsSums(lines, SupplierKey(), LineGoods());
  }

  lemma BasketShipping(lines: seq<Line>, suppliers: nat -> Supplier, quotes: nat -> Option<nat>,
                       code: Option<DiscountCode>)
    ensures PriceBasket(lines, suppliers, quotes, code).shipping
         == SumBy(SupplierKeys(lines), ShippingFor(lines, suppliers, quotes))
  {
    var p := PriceBasket(lines, suppliers, quotes, code);
    forall j | 0 <= j < |p.subs|
      ensures SubShipping()(p.subs[j]) == ShippingFor(lines, suppliers, quotes)(SupplierKeys(lines)[j])
    {
      GroupTotals(lines, j);
    }
    SumByAligned(p.subs, SupplierKeys(lines), SubShipping(), ShippingFor(lines, suppliers, quotes));
  }

  lemma BasketSums(lines: seq<Line>, suppliers: nat -> Supplier, quotes: nat -> Option<nat>,
                   code: Option<DiscountCode>)
    ensures SumBy(lines, LineGoods()) >= 0
    ensures var (p, goods) := (PriceBasket(lines, suppliers, quotes, code), SumBy(lines, LineGoods()));
            && p.goods == goods
            && p.discount == (if code.Some? then ComputeDiscount(code.value, goods) else 0)
            && p.shipping == SumBy(SupplierKeys(lines), ShippingFor(lines, suppliers, quotes))
            && p.total == p.goods - p.discount + p.shipping
  {
    var groups := ToGroups(G.GroupBy(lines, SupplierKey()), suppliers, quotes);
    SumByNonNegative(lines, LineGoods());
    BasketGoods(lines, suppliers, quotes);
    BasketShipping(lines, suppliers, quotes, code);
    OrderTotalReconciles(groups, code);
    DiscountsCompose(groups, code);
  }

  /** The charge as a closed form of the basket: no trace of grouping, splitting or order is left. */
  lemma BasketTotal(lines: seq<Line>, suppliers: nat -> Supplier, quotes: nat -> Option<nat>,
                    code: Option<DiscountCode>)
    ensures var (p, goods) := (PriceBasket(lines, suppliers, quotes, code), SumBy(lines, LineGoods()));
            && p.goods == goods
            && (code.None? ==> p.discount == 0)
            && (code.Some? && code.value.kind == FIXED ==>
                  p.discount == if code.value.value <= goods then code.value.value else goods)
            && (code.Some? && code.value.kind == PERCENTAGE && code.value.value <= 10000 ==>
                  NearestEven(p.discount, goods * code.value.value, 10000))
            && (code.Some? && code.value.kind == PERCENTAGE && code.value.value >= 10000 ==> p.discount == goods)
            && p.shipping == SumBy(SupplierKeys(lines), ShippingFor(lines, suppliers, quotes))
            && p.total == p.goods - p.discount + p.shipping
  {
    BasketSums(lines, suppliers, quotes, code);
    if code.Some? {
      DiscountIs(code.value, SumBy(lines, LineGoods()));
    }
  }

  // ---------------------------------------------------------------------------
  // Preview against checkout
  // ---------------------------------------------------------------------------

  /** Every supplier sells the same units for the same money in both, however the lines are arranged. */
  ghost predicate SameBasket(a: seq<Line>, b: seq<Line>) {
    && (forall l :: l in a + b ==> l.item.quantity > 0)
    && forall k: nat ::
         SumBy(a, GoodsFrom(k)) == SumBy(b, GoodsFrom(k)) && SumBy(a, UnitsFrom(k)) == SumBy(b, UnitsFrom(k))
  }

  lemma SellerHasUnits(lines: seq<Line>, k: nat)
    requires forall l :: l in lines ==> l.item.quantity > 0
    ensures k in SupplierKeys(lines) <==> SumBy(lines, UnitsFrom(k)) > 0
  {
    var gs := G.GroupBy(lines, SupplierKey());
    G.GroupByPartitions(lines, SupplierKey());
    if k in SupplierKeys(lines) {
      var j :| 0 <= j < |gs| && SupplierKeys(lines)[j] == k;
      var l := gs[j].items[0];
      assert l in lines && l.supplier == k;
      var i :| 0 <= i < |lines| && lines[i] == l;
      SumByMember(lines, i, UnitsFrom(k));
    } else {
      forall l | l in lines ensures UnitsFrom(k)(l) == 0 {
        assert SupplierKey()(l) in SupplierKeys(lines);
      }
      NoUnits(lines, UnitsFrom(k));
    }
  }

  lemma {:induction false} NoUnits(lines: seq<Line>, f: Line -> int)
    requires forall l :: l in lines ==> f(l) == 0
    ensures SumBy(lines, f) == 0
  {
    if lines != [] {
      NoUnits(lines[1..], f);
    }
  }

  lemma SameSellers(a: seq<Line>, b: seq<Line>, f: nat -> int)
    requires SameBasket(a, b)
    ensures SumBy(SupplierKeys(a), f) == SumBy(SupplierKeys(b), f)
  {
    G.GroupByPartitions(a, SupplierKey());
    G.GroupByPartitions(b, SupplierKey());
    forall k ensures k in SupplierKeys(a) <==> k in SupplierKeys(b) {
      SellerHasUnits(a, k);
      SellerHasUnits(b, k);
    }
    SumBySameKeys(SupplierKeys(a), SupplierKeys(b), f);
  }

  /** What a live courier quote adds to, or takes off, the supplier's standing shipping. */
  function QuoteSurcharge(lines: seq<Line>, suppliers: nat -> Supplier, quotes: nat -> Option<nat>): nat -> int {
    (k: nat) => ShippingFor(lines, suppliers, quotes)(k) - ShippingFor(lines, suppliers, NoQuotes())(k)
  }

  lemma {:induction false} TotalSellers(a: seq<Line>, b: seq<Line>)
    requires SameBasket(a, b)
    ensures SumBy(a, LineGoods()) == SumBy(b, LineGoods())
  {
    SellerSums(a);
    SellerSums(b);
    var perSeller := (k: nat) => SumBy(a, GoodsFrom(k));
    SameSellers(a, b, perSeller);
    SumByPointwise(SupplierKeys(b), perSeller, (k: nat) => SumBy(b, GoodsFrom(k)));
  }

  lemma SellerSums(lines: seq<Line>)
    ensures SumBy(lines, LineGoods()) == SumBy(SupplierKeys(lines), (k: nat) => SumBy(lines, GoodsFrom(k)))
  {
    var gs := G.GroupBy(lines, SupplierKey());
    var perSeller := (k: nat) => SumBy(lines, GoodsFrom(k));
    G.GroupingKeepsSums(lines, SupplierKey(), LineGoods());
    G.GroupByPartitions(lines, SupplierKey());
    forall j | 0 <= j < |gs| ensures G.ItemSum(LineGoods())(gs[j]) == perSeller(SupplierKeys(lines)[j]) {
      SumOverFilter(lines, gs[j].key, LineGoods(), GoodsFrom(gs[j].key));
    }
    SumByAligned(gs, SupplierKeys(lines), G.ItemSum(LineGoods()), perSeller);
  }

  /**
   The previewed discount is the discount charged, and the previewed total is the total charged exactly
   when the courier quotes add nothing over the suppliers' standing fees.
   */
  lemma PreviewIsCharge(cart: seq<Line>, lines: seq<Line>, suppliers: nat -> Supplier, quotes: nat -> Option<nat>,
                        code: Option<DiscountCode>)
    requires SameBasket(cart, lines)
    ensures var preview := PriceBasket(cart, suppliers, NoQuotes(), code);
            var charged := PriceBasket(lines, suppliers, quotes, code);
            var surcharge := SumBy(SupplierKeys(lines), QuoteSurcharge(lines, suppliers, quotes));
            && charged.goods == preview.goods && charged.discount == preview.discount
            && charged.total == preview.total + surcharge
            && ((forall k :: k in SupplierKeys(lines) ==> quotes(k).None?) ==> charged.total == preview.total)
  {
    BasketSums(cart, suppliers, NoQuotes(), code);
    BasketSums(lines, suppliers, quotes, code);
    TotalSellers(cart, lines);
    var (keys, standing) := (SupplierKeys(lines), ShippingFor(lines, suppliers, NoQuotes()));
    var live := ShippingFor(lines, suppliers, quotes);
    var surcharge := QuoteSurcharge(lines, suppliers, quotes);
    SameSellers(cart, lines, ShippingFor(cart, suppliers, NoQuotes()));
    SumByPointwise(keys, ShippingFor(cart, suppliers, NoQuotes()), standing);
    SumByLinear(keys, standing, surcharge, live);
    if forall k :: k in keys ==> quotes(k).None? {
      SumByPointwise(keys, standing, live);
    }
  }

  // ---------------------------------------------------------------------------
  // Rearrangements of a cart that are the same basket
  // ---------------------------------------------------------------------------

  lemma PermutedBasket(a: seq<Line>, b: seq<Line>)
    requires multiset(a) == multiset(b) && forall l :: l in a ==> l.item.quantity > 0
    ensures SameBasket(a, b)
  {
    forall l | l in b ensures l in a {
      assert l in multiset(b);
    }
    forall k: nat
      ensures SumBy(a, GoodsFrom(k)) == SumBy(b, GoodsFrom(k)) && SumBy(a, UnitsFrom(k)) == SumBy(b, UnitsFrom(k))
    {
      SumByPermutation(a, b, GoodsFrom(k));
      SumByPermutation(a, b, UnitsFrom(k));
    }
  }

  /** Splitting one line's units over two lines of the same supplier. */
  lemma SplitBasket(before: seq<Line>, l: Line, after: seq<Line>, x: Line, y: Line)
    requires forall m :: m in before + [l] + after + [x, y] ==> m.item.quantity > 0
    requires x.supplier == y.supplier == l.supplier
    requires x.item.quantity + y.item.quantity == l.item.quantity
    requires x.item.lineTotal + y.item.lineTotal == l.item.lineTotal
    ensures SameBasket(before + [l] + after, before + [x, y] + after)
  {
    forall k: nat
      ensures SumBy(before + [l] + after, GoodsFrom(k)) == SumBy(before + [x, y] + after, GoodsFrom(k))
      ensures SumBy(before + [l] + after, UnitsFrom(k)) == SumBy(before + [x, y] + after, UnitsFrom(k))
    {
      SplitSums(before, l, after, x, y, GoodsFrom(k));
      SplitSums(before, l, after, x, y, UnitsFrom(k));
    }
  }

  lemma SplitSums(before: seq<Line>, l: Line, after: seq<Line>, x: Line, y: Line, f: Line -> int)
    requires f(x) + f(y) == f(l)
    ensures SumBy(before + [l] + after, f) == SumBy(before + [x, y] + after, f)
  {
    SumByConcat(before + [l], after, f);
    SumByConcat(before + [x, y], after, f);
    SumByConcat(before, [l], f);
    SumByConcat(before, [x, y], f);
    SumBySnoc([x], y, f);
  }
}
